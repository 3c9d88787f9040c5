/** The member list given to a peer at start: `host,peer,ip,port|host,peer,ip,port|...`. */
module Members {
  import opened Counting
  import opened KvModel

  const TWO_31: int := 0x8000_0000
  const TWO_32: int := 0x1_0000_0000
  const TWO_63: int := 0x8000_0000_0000_0000
  const TWO_64: int := 0x1_0000_0000_0000_0000

  datatype GroupMember = GroupMember(hostId: nat, peerId: nat, ip: string, port: nat)

  /** Splitting at every occurrence of a separator; there is always at least one part. */
  function Split(s: string, sep: char): (parts: seq<string>)
    ensures |parts| >= 1
  {
    if s == "" then [""]
    else
      var rest := Split(s[1..], sep);
      if s[0] == sep then [""] + rest else [[s[0]] + rest[0]] + rest[1..]
  }

  function Join(parts: seq<string>, sep: char): string
    requires |parts| >= 1
  {
    if |parts| == 1 then parts[0] else parts[0] + [sep] + Join(parts[1..], sep)
  }

  predicate IsDigit(c: char) { '0' <= c <= '9' }

  predicate IsSpace(c: char) { c == ' ' || '\t' <= c <= '\r' }

  function DigitOf(c: char): (d: nat)
    requires IsDigit(c)
  {
    c as int - '0' as int
  }

  /** The value of the leading decimal digits, continuing from `acc`. */
  function DigitsValue(s: string, acc: nat): nat {
    if s != "" && IsDigit(s[0]) then DigitsValue(s[1..], acc * 10 + DigitOf(s[0])) else acc
  }

  function SkipSpace(s: string): string {
    if s != "" && IsSpace(s[0]) then SkipSpace(s[1..]) else s
  }

  function SignedValue(t: string): int {
    if t != "" && t[0] == '-' then 0 - DigitsValue(t[1..], 0)
    else if t != "" && t[0] == '+' then DigitsValue(t[1..], 0)
    else DigitsValue(t, 0)
  }

  /** Truncation to a signed 32-bit value. */
  function ToInt32(v: int): (w: int)
    ensures -TWO_31 <= w < TWO_31
    ensures -TWO_31 <= v < TWO_31 ==> w == v
  {
    var word := v % TWO_32;
    if word < TWO_31 then word else word - TWO_32
  }

  /** `atoi`: optional white space, an optional sign, digits, and anything after them. A value
      outside the range of `long` saturates, and the result is truncated to 32 bits. */
  function Atoi(s: string): (v: int)
    ensures -TWO_31 <= v < TWO_31
  {
    var v := SignedValue(SkipSpace(s));
    var long := if v < -TWO_63 then -TWO_63 else if TWO_63 <= v then TWO_63 - 1 else v;
    ToInt32(long)
  }

  /** The conversions of `atoi` results to host and peer ids (`uint64_t`) and ports (`uint16_t`). */
  function ToId(s: string): (id: nat)
    ensures id < TWO_64 && (id - Atoi(s)) % TWO_64 == 0
  {
    var v := Atoi(s);
    if v < 0 then v + TWO_64 else v
  }

  function ToPort(s: string): (port: nat)
    ensures port < 0x1_0000 && (port - Atoi(s)) % 0x1_0000 == 0
  {
    Atoi(s) % 0x1_0000
  }

  function ParseMember(fields: seq<string>): GroupMember
    requires |fields| == 4
  {
    GroupMember(ToId(fields[0]), ToId(fields[1]), fields[2], ToPort(fields[3]))
  }

  /** The member one part describes; none if it does not have four fields. */
  function MemberOf(part: string): Option<GroupMember> {
    var fields := Split(part, ',');
    if |fields| == 4 then Some(ParseMember(fields)) else None
  }

  function MembersOf(parts: seq<string>): seq<Option<GroupMember>> {
    seq(|parts|, i requires 0 <= i < |parts| => MemberOf(parts[i]))
  }

  /** The member table after the first `n` parts, or `None` where the process halts: on a part
      that describes no member, and on a host that is already in the table. */
  function Table(ms: seq<Option<GroupMember>>, n: nat): Option<map<nat, GroupMember>>
    requires n <= |ms|
  {
    if n == 0 then Some(map[])
    else
      var table, m := Table(ms, n - 1), ms[n - 1];
      if table.None? || m.None? || m.value.hostId in table.value then None
      else Some(table.value[m.value.hostId := m.value])
  }

  function ParseMembers(text: string): Option<map<nat, GroupMember>> {
    var ms := MembersOf(Split(text, '|'));
    Table(ms, |ms|)
  }

  function Decimal(n: nat): string {
    if n < 10 then [('0' as int + n) as char] else Decimal(n / 10) + [('0' as int + n % 10) as char]
  }

  function Fields(m: GroupMember): seq<string> {
    [Decimal(m.hostId), Decimal(m.peerId), m.ip, Decimal(m.port)]
  }

  function PrintMember(m: GroupMember): string { Join(Fields(m), ',') }

  function PrintParts(ms: seq<GroupMember>): seq<string> {
    seq(|ms|, i requires 0 <= i < |ms| => PrintMember(ms[i]))
  }

  function PrintMembers(ms: seq<GroupMember>): string
    requires |ms| >= 1
  {
    Join(PrintParts(ms), '|')
  }

  predicate Printable(m: GroupMember) {
    && m.hostId < TWO_31 && m.peerId < TWO_31 && m.port < 0x1_0000
    && ',' !in m.ip && '|' !in m.ip
  }

  /** Every one of the first `n` parts describes a member, and no two the same host. */
  ghost predicate WellFormed(ms: seq<Option<GroupMember>>, n: nat)
    requires n <= |ms|
  {
    && (forall i :: 0 <= i < n ==> ms[i].Some?)
    && (forall i, j :: 0 <= i < j < n ==> ms[i].value.hostId != ms[j].value.hostId)
  }

  /** `table` holds the first `n` members and nothing else. */
  ghost predicate IsTableOf(table: map<nat, GroupMember>, ms: seq<Option<GroupMember>>, n: nat)
    requires n <= |ms| && forall i :: 0 <= i < n ==> ms[i].Some?
  {
    && (forall i :: 0 <= i < n ==> ms[i].value.hostId in table && table[ms[i].value.hostId] == ms[i].value)
    && (forall h :: h in table ==> exists i :: 0 <= i < n && ms[i].value.hostId == h)
  }

  lemma {:induction false} SplitAtFirst(a: string, rest: string, sep: char)
    requires sep !in a
    ensures Split(a + [sep] + rest, sep) == [a] + Split(rest, sep)
  {
    var s := a + [sep] + rest;
    if a == "" {
      assert s[1..] == rest;
    } else {
      SplitAtFirst(a[1..], rest, sep);
      assert s[1..] == a[1..] + [sep] + rest;
      assert [a[0]] + a[1..] == a;
    }
  }

  lemma {:induction false} SplitWhole(a: string, sep: char)
    requires sep !in a
    ensures Split(a, sep) == [a]
  {
    if a != "" {
      SplitWhole(a[1..], sep);
      assert [a[0]] + a[1..] == a;
    }
  }

  lemma {:induction false} SplitJoin(parts: seq<string>, sep: char)
    requires |parts| >= 1
    requires forall i :: 0 <= i < |parts| ==> sep !in parts[i]
    ensures Split(Join(parts, sep), sep) == parts
  {
    if |parts| == 1 {
      SplitWhole(parts[0], sep);
    } else {
      SplitJoin(parts[1..], sep);
      SplitAtFirst(parts[0], Join(parts[1..], sep), sep);
    }
  }

  /** Joining undoes splitting: the parts are the text between the separators, of which they
      hold none. */
  lemma {:induction false} JoinSplit(s: string, sep: char)
    ensures Join(Split(s, sep), sep) == s
    ensures |Split(s, sep)| == Times(s, sep) + 1
    ensures forall i :: 0 <= i < |Split(s, sep)| ==> sep !in Split(s, sep)[i]
  {
    if s != "" {
      JoinSplit(s[1..], sep);
      var parts, rest := Split(s, sep), Split(s[1..], sep);
      if s[0] == sep {
        assert parts[1..] == rest;
      } else {
        JoinLonger(rest, s[0], sep);
      }
    }
  }

  /** A character in front of the first part is a character in front of the text. */
  lemma JoinLonger(parts: seq<string>, c: char, sep: char)
    requires |parts| >= 1
    ensures Join([[c] + parts[0]] + parts[1..], sep) == [c] + Join(parts, sep)
  {
    var longer := [[c] + parts[0]] + parts[1..];
    assert longer[1..] == parts[1..];
  }

  lemma {:induction false} DecimalDigits(n: nat)
    ensures Decimal(n) != "" && forall i :: 0 <= i < |Decimal(n)| ==> IsDigit(Decimal(n)[i])
  {
    if n >= 10 {
      DecimalDigits(n / 10);
    }
  }

  lemma {:induction false} DigitsValueDecimal(n: nat, rest: string)
    ensures DigitsValue(Decimal(n) + rest, 0) == DigitsValue(rest, n)
  {
    var last := [('0' as int + n % 10) as char];
    if n < 10 {
      assert (Decimal(n) + rest)[1..] == rest;
    } else {
      DigitsValueDecimal(n / 10, last + rest);
      assert Decimal(n) + rest == Decimal(n / 10) + (last + rest);
      assert (last + rest)[1..] == rest;
    }
  }

  lemma AtoiDecimal(n: nat)
    requires n < TWO_31
    ensures Atoi(Decimal(n)) == n
  {
    DecimalDigits(n);
    DigitsValueDecimal(n, "");
    assert Decimal(n) + "" == Decimal(n);
  }

  lemma {:induction false} SpacesSkipped(blanks: string, rest: string)
    requires forall i :: 0 <= i < |blanks| ==> IsSpace(blanks[i])
    requires rest != "" ==> !IsSpace(rest[0])
    ensures SkipSpace(blanks + rest) == rest
  {
    if blanks == "" {
      assert blanks + rest == rest;
    } else {
      SpacesSkipped(blanks[1..], rest);
      assert (blanks + rest)[1..] == blanks[1..] + rest;
    }
  }

  /** `atoi` reads a number behind white space and a sign, up to the first non-digit. */
  lemma AtoiReads(blanks: string, sign: string, n: nat, rest: string)
    requires forall i :: 0 <= i < |blanks| ==> IsSpace(blanks[i])
    requires sign in {"", "+", "-"} && n < TWO_31 && (rest != "" ==> !IsDigit(rest[0]))
    ensures Atoi(blanks + (sign + (Decimal(n) + rest))) == if sign == "-" then 0 - n else n
  {
    var digits := Decimal(n) + rest;
    DecimalDigits(n);
    DigitsValueDecimal(n, rest);
    assert digits[0] == Decimal(n)[0];
    SpacesSkipped(blanks, sign + digits);
    if sign == "" {
      assert sign + digits == digits;
    } else {
      assert (sign + digits)[1..] == digits;
    }
  }

  lemma FieldsAvoid(m: GroupMember, c: char)
    requires Printable(m) && c in ",|"
    ensures forall i :: 0 <= i < 4 ==> c !in Fields(m)[i]
  {
    DecimalDigits(m.hostId);
    DecimalDigits(m.peerId);
    DecimalDigits(m.port);
  }

  lemma PrintedFields(m: GroupMember)
    requires Printable(m)
    ensures '|' !in PrintMember(m)
    ensures MemberOf(PrintMember(m)) == Some(m)
  {
    FieldsAvoid(m, ',');
    FieldsAvoid(m, '|');
    SplitJoin(Fields(m), ',');
    JoinAvoids(Fields(m), ',', '|');
    FieldsParse(m);
  }

  lemma FieldsParse(m: GroupMember)
    requires Printable(m)
    ensures ParseMember(Fields(m)) == m
  {
    AtoiDecimal(m.hostId);
    AtoiDecimal(m.peerId);
    AtoiDecimal(m.port);
  }

  lemma {:induction false} JoinAvoids(parts: seq<string>, sep: char, c: char)
    requires |parts| >= 1 && c != sep
    requires forall i :: 0 <= i < |parts| ==> c !in parts[i]
    ensures c !in Join(parts, sep)
  {
    if |parts| > 1 {
      JoinAvoids(parts[1..], sep, c);
    }
  }

  lemma TableGrows(table: map<nat, GroupMember>, ms: seq<Option<GroupMember>>, n: nat)
    requires n < |ms| && WellFormed(ms, n) && IsTableOf(table, ms, n) && ms[n].Some?
    ensures WellFormed(ms, n + 1) <==> ms[n].value.hostId !in table
    ensures ms[n].value.hostId !in table ==> IsTableOf(table[ms[n].value.hostId := ms[n].value], ms, n + 1)
  {
    var host := ms[n].value.hostId;
    if host in table {
      var i :| 0 <= i < n && ms[i].value.hostId == host;
      assert ms[i].value.hostId == ms[n].value.hostId;
    } else {
      var table' := table[host := ms[n].value];
      forall h | h in table'
        ensures exists i :: 0 <= i < n + 1 && ms[i].value.hostId == h
      {
        if h in table {
          var i :| 0 <= i < n && ms[i].value.hostId == h;
        } else {
          assert ms[n].value.hostId == h;
        }
      }
    }
  }

  /** A list is accepted exactly when every part describes a member and no host occurs twice,
      and the table then holds exactly those members. */
  lemma {:induction false} AcceptedExactly(ms: seq<Option<GroupMember>>, n: nat)
    requires n <= |ms|
    ensures Table(ms, n).Some? <==> WellFormed(ms, n)
    ensures Table(ms, n).Some? ==> IsTableOf(Table(ms, n).value, ms, n)
  {
    if n > 0 {
      AcceptedExactly(ms, n - 1);
      if Table(ms, n - 1).Some? && ms[n - 1].Some? {
        TableGrows(Table(ms, n - 1).value, ms, n - 1);
      }
    }
  }

  /** The host id a part begins with. */
  function HostOf(part: string): nat {
    ToId(Split(part, ',')[0])
  }

  /** Each part has exactly three commas and no two parts have the same host id. */
  ghost predicate ListsMembers(parts: seq<string>) {
    && (forall i :: 0 <= i < |parts| ==> Times(parts[i], ',') == 3)
    && (forall i, j :: 0 <= i < j < |parts| ==> HostOf(parts[i]) != HostOf(parts[j]))
  }

  /** The member that four fields describe, in their order. */
  ghost predicate Describes(fields: seq<string>, m: GroupMember) {
    && |fields| == 4
    && m.hostId == ToId(fields[0]) && m.peerId == ToId(fields[1]) && m.ip == fields[2] && m.port == ToPort(fields[3])
  }

  /** The table holds the members the parts describe, and no others. */
  ghost predicate TableOfParts(table: map<nat, GroupMember>, parts: seq<string>) {
    && (forall i :: 0 <= i < |parts| ==>
          HostOf(parts[i]) in table && Describes(Split(parts[i], ','), table[HostOf(parts[i])]))
    && (forall h :: h in table ==> exists i :: 0 <= i < |parts| && HostOf(parts[i]) == h)
  }

  ghost predicate PartOk(part: string, m: Option<GroupMember>) {
    && (m.Some? <==> Times(part, ',') == 3)
    && (m.Some? ==> Describes(Split(part, ','), m.value) && m.value.hostId == HostOf(part))
  }

  lemma PartIsMember(part: string)
    ensures PartOk(part, MemberOf(part))
  {
    JoinSplit(part, ',');
  }

  lemma WellFormedParts(parts: seq<string>, ms: seq<Option<GroupMember>>)
    requires |ms| == |parts| && forall i :: 0 <= i < |parts| ==> PartOk(parts[i], ms[i])
    ensures WellFormed(ms, |ms|) <==> ListsMembers(parts)
  {
    if WellFormed(ms, |ms|) {
      forall i, j | 0 <= i < j < |parts|
        ensures HostOf(parts[i]) != HostOf(parts[j])
      {
        assert ms[i].value.hostId != ms[j].value.hostId;
      }
    }
    if ListsMembers(parts) {
      forall i, j | 0 <= i < j < |ms|
        ensures ms[i].Some? && ms[j].Some? && ms[i].value.hostId != ms[j].value.hostId
      {
        assert PartOk(parts[i], ms[i]) && PartOk(parts[j], ms[j]);
      }
    }
  }

  lemma TableParts(parts: seq<string>, ms: seq<Option<GroupMember>>, table: map<nat, GroupMember>)
    requires |ms| == |parts| && forall i :: 0 <= i < |parts| ==> ms[i].Some? && PartOk(parts[i], ms[i])
    requires IsTableOf(table, ms, |ms|)
    ensures TableOfParts(table, parts)
  {
    forall h | h in table
      ensures exists i :: 0 <= i < |parts| && HostOf(parts[i]) == h
    {
      var i :| 0 <= i < |ms| && ms[i].value.hostId == h;
      assert HostOf(parts[i]) == h;
    }
  }

  /** Acceptance by the text alone, and the table by the fields of the parts. */
  lemma TextAcceptedExactly(text: string)
    ensures ParseMembers(text).Some? <==> ListsMembers(Split(text, '|'))
    ensures ParseMembers(text).Some? ==> TableOfParts(ParseMembers(text).value, Split(text, '|'))
  {
    var parts := Split(text, '|');
    var ms := MembersOf(parts);
    AcceptedExactly(ms, |ms|);
    forall i | 0 <= i < |parts|
      ensures PartOk(parts[i], ms[i])
    {
      PartIsMember(parts[i]);
    }
    WellFormedParts(parts, ms);
    if ParseMembers(text).Some? {
      TableParts(parts, ms, ParseMembers(text).value);
    }
  }

  /** Every printed part is parsed back to its member. */
  lemma PartsRoundTrip(ms: seq<GroupMember>)
    requires |ms| >= 1 && forall i :: 0 <= i < |ms| ==> Printable(ms[i])
    ensures var parsed := MembersOf(Split(PrintMembers(ms), '|'));
            |parsed| == |ms| && forall i :: 0 <= i < |ms| ==> parsed[i] == Some(ms[i])
  {
    var parts := PrintParts(ms);
    forall i | 0 <= i < |ms|
      ensures '|' !in parts[i] && MemberOf(parts[i]) == Some(ms[i])
    {
      PrintedFields(ms[i]);
    }
    SplitJoin(parts, '|');
  }

  /** The table of a sequence of members without repeated hosts. */
  lemma TableOfAll(ms: seq<GroupMember>, parsed: seq<Option<GroupMember>>)
    requires |parsed| == |ms| && forall i :: 0 <= i < |ms| ==> parsed[i] == Some(ms[i])
    requires forall i, j :: 0 <= i < j < |ms| ==> ms[i].hostId != ms[j].hostId
    ensures Table(parsed, |ms|).Some? && IsTableOf(Table(parsed, |ms|).value, parsed, |ms|)
  {
    AcceptedExactly(parsed, |ms|);
  }

  /** Printing any non-empty list of members with distinct hosts and parsing the text gives
      back exactly those members. */
  lemma MembersRoundTrip(ms: seq<GroupMember>)
    requires |ms| >= 1
    requires forall i, j :: 0 <= i < j < |ms| ==> ms[i].hostId != ms[j].hostId
    requires forall i :: 0 <= i < |ms| ==> Printable(ms[i])
    ensures var table := ParseMembers(PrintMembers(ms));
            table.Some? && Lists(table.value, ms)
  {
    PartsRoundTrip(ms);
    var parsed := MembersOf(Split(PrintMembers(ms), '|'));
    TableOfAll(ms, parsed);
    SameTable(Table(parsed, |ms|).value, ms, parsed);
  }

  /** `table` maps the host of every member to that member, and no other host. */
  ghost predicate Lists(table: map<nat, GroupMember>, ms: seq<GroupMember>) {
    && (forall i :: 0 <= i < |ms| ==> ms[i].hostId in table && table[ms[i].hostId] == ms[i])
    && (forall h :: h in table ==> exists i :: 0 <= i < |ms| && ms[i].hostId == h)
  }

  lemma SameTable(table: map<nat, GroupMember>, ms: seq<GroupMember>, parsed: seq<Option<GroupMember>>)
    requires |parsed| == |ms| && forall i :: 0 <= i < |ms| ==> parsed[i] == Some(ms[i])
    requires IsTableOf(table, parsed, |ms|)
    ensures Lists(table, ms)
  {
    forall h | h in table
      ensures exists i :: 0 <= i < |ms| && ms[i].hostId == h
    {
      var i :| 0 <= i < |ms| && parsed[i].value.hostId == h;
      assert ms[i].hostId == h;
    }
  }
}
