/** How events cross the wire: field names mangled from snake to camel, and back.
    Characters are ASCII; values are opaque. */
module WireNames {

  import opened Wrappers

  predicate IsLower(c: char) { 'a' <= c <= 'z' }

  predicate IsUpper(c: char) { 'A' <= c <= 'Z' }

  predicate IsLetter(c: char) { IsLower(c) || IsUpper(c) }

  function ToUpper(c: char): char { if IsLower(c) then c - 'a' + 'A' else c }

  function ToLower(c: char): char { if IsUpper(c) then c - 'A' + 'a' else c }

  /** Python's `str.title`: a letter after a letter is lowered, any other letter is raised. */
  function Title(s: string, afterLetter: bool := false): (t: string)
    ensures |t| == |s|
    ensures forall k :: 0 <= k < |s| ==>
              t[k] == if (if k == 0 then afterLetter else IsLetter(s[k - 1])) then ToLower(s[k]) else ToUpper(s[k])
  {
    if s == "" then "" else
      [if afterLetter then ToLower(s[0]) else ToUpper(s[0])] + Title(s[1..], IsLetter(s[0]))
  }

  /** Python's `split("_")`, which never returns an empty list. */
  function Split(s: string): (parts: seq<string>)
    ensures |parts| > 0 && forall j :: 0 <= j < |parts| ==> '_' !in parts[j]
  {
    if s == "" then [""] else
      var rest := Split(s[1..]);
      if s[0] == '_' then [""] + rest else [[s[0]] + rest[0]] + rest[1..]
  }

  function Titles(parts: seq<string>): string {
    if parts == [] then "" else Title(parts[0]) + Titles(parts[1..])
  }

  /** The mangling of the fulfilment and policy contracts. */
  function Camel(name: string): string {
    Split(name)[0] + Titles(Split(name)[1..])
  }

  function RStrip(name: string): (stripped: string)
    ensures stripped <= name && forall k :: |stripped| <= k < |name| ==> name[k] == '_'
    ensures stripped != "" ==> stripped[|stripped| - 1] != '_'
  {
    if name != "" && name[|name| - 1] == '_' then RStrip(name[..|name| - 1]) else name
  }

  /** The mangling of the ledger contracts, which strips trailing underscores first. */
  function LedgerCamel(name: string): string {
    Camel(RStrip(name))
  }

  // ---- stripping makes no difference ------------------------------------------------

  lemma {:induction false} SplitTrailing(s: string)
    ensures Split(s + "_") == Split(s) + [""]
  {
    if s != "" {
      SplitTrailing(s[1..]);
      assert (s + "_")[1..] == s[1..] + "_";
      assert Split(s) + [""] == if s[0] == '_' then [""] + Split(s[1..]) + [""]
                                else [[s[0]] + Split(s[1..])[0]] + Split(s[1..])[1..] + [""];
    } else {
      assert "_"[1..] == "";
      assert Split("_") == [""] + Split("");
    }
  }

  lemma {:induction false} TitlesTrailing(parts: seq<string>)
    ensures Titles(parts + [""]) == Titles(parts)
  {
    if parts != [] {
      TitlesTrailing(parts[1..]);
      assert (parts + [""])[1..] == parts[1..] + [""];
    } else {
      assert [""][1..] == [];
    }
  }

  /** The ledger's extra rule changes no name: an empty last segment already mangles to nothing. */
  lemma {:induction false} StrippingIsRedundant(name: string)
    ensures LedgerCamel(name) == Camel(name)
  {
    if name != "" && name[|name| - 1] == '_' {
      var shorter := name[..|name| - 1];
      StrippingIsRedundant(shorter);
      assert name == shorter + "_";
      SplitTrailing(shorter);
      TitlesTrailing(Split(shorter)[1..]);
      assert (Split(shorter) + [""])[1..] == Split(shorter)[1..] + [""];
    }
  }

  // ---- a left inverse -----------------------------------------------------------------

  predicate Segment(s: string) {
    s != "" && forall i :: 0 <= i < |s| ==> IsLower(s[i])
  }

  /** Non-empty lower-case segments joined by single underscores. */
  predicate SnakeCase(name: string) {
    forall i :: 0 <= i < |Split(name)| ==> Segment(Split(name)[i])
  }

  /** Each capital becomes an underscore and its lower-case letter. */
  function Uncamel(s: string): string {
    if s == "" then "" else
      (if IsUpper(s[0]) then ['_', ToLower(s[0])] else [s[0]]) + Uncamel(s[1..])
  }

  function Joined(parts: seq<string>): string {
    if parts == [] then "" else "_" + parts[0] + Joined(parts[1..])
  }

  lemma {:induction false} UncamelConcat(s: string, t: string)
    ensures Uncamel(s + t) == Uncamel(s) + Uncamel(t)
  {
    if s == "" {
      assert s + t == t;
    } else {
      UncamelConcat(s[1..], t);
      assert (s + t)[1..] == s[1..] + t && (s + t)[0] == s[0];
      var head := if IsUpper(s[0]) then ['_', ToLower(s[0])] else [s[0]];
      assert head + (Uncamel(s[1..]) + Uncamel(t)) == head + Uncamel(s[1..]) + Uncamel(t);
    }
  }

  lemma {:induction false} LowerIsFixed(s: string)
    requires forall i :: 0 <= i < |s| ==> IsLower(s[i])
    ensures Uncamel(s) == s && Title(s, true) == s
  {
    if s != "" {
      LowerIsFixed(s[1..]);
    }
  }

  lemma UncamelTitle(s: string)
    requires Segment(s)
    ensures Uncamel(Title(s)) == "_" + s
  {
    LowerIsFixed(s[1..]);
    assert Title(s)[1..] == s[1..];
    assert ToLower(ToUpper(s[0])) == s[0];
  }

  lemma {:induction false} UncamelTitles(parts: seq<string>)
    requires forall i :: 0 <= i < |parts| ==> Segment(parts[i])
    ensures Uncamel(Titles(parts)) == Joined(parts)
  {
    if parts != [] {
      UncamelTitles(parts[1..]);
      UncamelTitle(parts[0]);
      UncamelConcat(Title(parts[0]), Titles(parts[1..]));
    }
  }

  lemma {:induction false} JoinSplit(s: string)
    ensures Split(s)[0] + Joined(Split(s)[1..]) == s
  {
    if s != "" {
      JoinSplit(s[1..]);
      if s[0] == '_' {
        assert ([""] + Split(s[1..]))[1..] == Split(s[1..]);
      }
    }
  }

  /** Mangling a snake-case name loses nothing. */
  lemma UncamelCamel(name: string)
    requires SnakeCase(name)
    ensures Uncamel(Camel(name)) == name
  {
    var parts := Split(name);
    LowerIsFixed(parts[0]);
    UncamelTitles(parts[1..]);
    UncamelConcat(parts[0], Titles(parts[1..]));
    JoinSplit(name);
  }

  // ---- what a mangled name looks like ------------------------------------------------

  /** Where a segment starts, once the segments are run together. */
  function Start(parts: seq<string>, j: nat): nat
    requires j <= |parts|
    decreases j
  {
    if j == 0 then 0 else Start(parts, j - 1) + |parts[j - 1]|
  }

  lemma {:induction false} StartTail(parts: seq<string>, j: nat)
    requires 0 < j <= |parts|
    ensures Start(parts, j) == |parts[0]| + Start(parts[1..], j - 1)
    decreases j
  {
    if j > 1 {
      StartTail(parts, j - 1);
    }
  }

  /** The characters of the titles, one by one: the segment's, its first one raised. */
  lemma {:induction false} TitlesAt(parts: seq<string>, j: nat, k: nat)
    requires forall i :: 0 <= i < |parts| ==> Segment(parts[i])
    requires j < |parts| && k < |parts[j]|
    ensures Start(parts, j) + k < |Titles(parts)|
    ensures Titles(parts)[Start(parts, j) + k] == if k == 0 then ToUpper(parts[j][0]) else parts[j][k]
    decreases |parts|
  {
    if j == 0 {
      assert k > 0 ==> IsLower(parts[0][k - 1]) && IsLower(parts[0][k]);
    } else {
      StartTail(parts, j);
      TitlesAt(parts[1..], j - 1, k);
    }
  }

  lemma {:induction false} TitlesLength(parts: seq<string>)
    ensures |Titles(parts)| == Start(parts, |parts|)
  {
    if parts != [] {
      TitlesLength(parts[1..]);
      StartTail(parts, |parts|);
    }
  }

  /** A mangled snake-case name is its segments run together, the first letter of each but
      the first one raised and nothing else changed. */
  lemma CamelAt(name: string, j: nat, k: nat)
    requires SnakeCase(name) && j < |Split(name)| && k < |Split(name)[j]|
    ensures var parts := Split(name);
            && Start(parts, j) + k < |Camel(name)|
            && Camel(name)[Start(parts, j) + k] == if j > 0 && k == 0 then ToUpper(parts[j][0]) else parts[j][k]
  {
    var parts := Split(name);
    assert Camel(name) == parts[0] + Titles(parts[1..]);
    if j > 0 {
      TailAt(parts, j, k);
    }
  }

  lemma TailAt(parts: seq<string>, j: nat, k: nat)
    requires forall i :: 0 <= i < |parts| ==> Segment(parts[i])
    requires 0 < j < |parts| && k < |parts[j]|
    ensures var camel := parts[0] + Titles(parts[1..]);
            && Start(parts, j) + k < |camel|
            && camel[Start(parts, j) + k] == if k == 0 then ToUpper(parts[j][0]) else parts[j][k]
  {
    StartTail(parts, j);
    TitlesAt(parts[1..], j - 1, k);
    assert parts[1..][j - 1] == parts[j];
  }

  lemma CamelLength(name: string)
    ensures |Camel(name)| == Start(Split(name), |Split(name)|)
  {
    TitlesLength(Split(name)[1..]);
    StartTail(Split(name), |Split(name)|);
  }

  /** So it holds letters only, and its capitals are where the later segments start. */
  lemma CamelIsCased(name: string, i: nat)
    requires SnakeCase(name) && i < |Camel(name)|
    ensures IsLetter(Camel(name)[i])
    ensures IsUpper(Camel(name)[i]) <==> StartsSegment(Split(name), i)
  {
    var parts := Split(name);
    CamelLength(name);
    var j, k := Locate(parts, |parts|, i);
    CamelAt(name, j, k);
    assert IsLower(parts[j][k]);
    if StartsSegment(parts, i) {
      var other :| 1 <= other < |parts| && Start(parts, other) == i;
      Apart(parts, j, other);
    }
  }

  /** A segment after the first starts at that position. */
  predicate StartsSegment(parts: seq<string>, i: nat) {
    exists j :: 1 <= j < |parts| && Start(parts, j) == i
  }

  /** The segment a position falls in, and where in it. */
  lemma {:induction false} Locate(parts: seq<string>, n: nat, i: nat) returns (j: nat, k: nat)
    requires n <= |parts| && i < Start(parts, n)
    ensures j < n && k < |parts[j]| && Start(parts, j) + k == i
    decreases n
  {
    if i < Start(parts, n - 1) {
      j, k := Locate(parts, n - 1, i);
    } else {
      j, k := n - 1, i - Start(parts, n - 1);
    }
  }

  /** Segments do not overlap. */
  lemma {:induction false} Apart(parts: seq<string>, j: nat, other: nat)
    requires j < |parts| && other < |parts|
    ensures j < other ==> Start(parts, j) + |parts[j]| <= Start(parts, other)
    ensures other < j ==> Start(parts, other) + |parts[other]| <= Start(parts, j)
    decreases j + other
  {
    if j + 1 < other {
      Apart(parts, j, other - 1);
    } else if other + 1 < j {
      Apart(parts, j - 1, other);
    }
  }

  // ---- records ---------------------------------------------------------------------

  /** A record of a shape: a value for each of its fields. */
  predicate Shaped<V>(fields: seq<string>, record: map<string, V>) {
    record.Keys == set f | f in fields
  }

  /** The comprehension over the fields: a later field overwrites an equal key. */
  function ToWire<V>(fields: seq<string>, record: map<string, V>): map<string, V>
    requires forall f :: f in fields ==> f in record
  {
    if fields == [] then map[] else
      var n := |fields| - 1;
      ToWire(fields[..n], record)[LedgerCamel(fields[n]) := record[fields[n]]]
  }

  /** None is the `KeyError` of a missing field. */
  function FromWire<V>(fields: seq<string>, payload: map<string, V>): (record: Option<map<string, V>>)
    ensures record.Some? <==> forall f :: f in fields ==> LedgerCamel(f) in payload
    ensures record.Some? ==> Shaped(fields, record.value) && forall f :: f in fields ==> record.value[f] == payload[LedgerCamel(f)]
  {
    if forall f :: f in fields ==> LedgerCamel(f) in payload then
      Some(map f | f in fields :: payload[LedgerCamel(f)])
    else
      None
  }

  ghost predicate Distinguished(fields: seq<string>) {
    forall f, g :: f in fields && g in fields && LedgerCamel(f) == LedgerCamel(g) ==> f == g
  }

  lemma {:induction false} WireKeys<V>(fields: seq<string>, record: map<string, V>)
    requires forall f :: f in fields ==> f in record
    ensures forall f :: f in fields ==> LedgerCamel(f) in ToWire(fields, record)
    ensures Distinguished(fields) ==> forall f :: f in fields ==> ToWire(fields, record)[LedgerCamel(f)] == record[f]
  {
    if fields != [] {
      var n := |fields| - 1;
      WireKeys(fields[..n], record);
      assert fields == fields[..n] + [fields[n]];
    }
  }

  /** Of the fields that mangle to one name, the last one is on the wire. */
  lemma {:induction false} LastFieldWins<V>(fields: seq<string>, record: map<string, V>, i: nat)
    requires (forall f :: f in fields ==> f in record) && i < |fields|
    requires forall j :: i < j < |fields| ==> LedgerCamel(fields[j]) != LedgerCamel(fields[i])
    ensures LedgerCamel(fields[i]) in ToWire(fields, record)
    ensures ToWire(fields, record)[LedgerCamel(fields[i])] == record[fields[i]]
  {
    var n := |fields| - 1;
    if i < n {
      LastFieldWins(fields[..n], record, i);
      assert LedgerCamel(fields[n]) != LedgerCamel(fields[i]);
    }
  }

  /** A shape survives the wire, for every record of it, exactly when no two of its
      fields mangle to one name. `x` and `y` are any two values that differ. */
  lemma RoundTrip<V(!new)>(fields: seq<string>, x: V, y: V)
    requires x != y
    ensures (forall record: map<string, V> :: Shaped(fields, record) ==>
                FromWire(fields, ToWire(fields, record)) == Some(record))
            <==> Distinguished(fields)
  {
    forall record: map<string, V> | Shaped(fields, record) && Distinguished(fields)
      ensures FromWire(fields, ToWire(fields, record)) == Some(record)
    {
      WireKeys(fields, record);
      assert FromWire(fields, ToWire(fields, record)).value == record;
    }
    if !Distinguished(fields) {
      var f, g :| f in fields && g in fields && LedgerCamel(f) == LedgerCamel(g) && f != g;
      var record := map h | h in fields :: if h == f then x else y;
      assert Shaped(fields, record);
      assert record[f] != record[g];
      assert FromWire(fields, ToWire(fields, record)) != Some(record);
    }
  }

  /** For snake-case names, with or without trailing underscores, that happens exactly
      when two fields differ only in those underscores. */
  lemma DistinguishedIff(fields: seq<string>)
    requires forall f :: f in fields ==> SnakeCase(RStrip(f))
    ensures Distinguished(fields) <==>
              forall f, g :: f in fields && g in fields && RStrip(f) == RStrip(g) ==> f == g
  {
    forall f | f in fields ensures Uncamel(LedgerCamel(f)) == RStrip(f) {
      UncamelCamel(RStrip(f));
    }
    if Distinguished(fields) {
      forall f, g | f in fields && g in fields && RStrip(f) == RStrip(g) ensures f == g {
        assert LedgerCamel(f) == LedgerCamel(g);
      }
    }
  }

  /** So a shape with snake-case names survives the wire whenever no two of its fields
      differ only in trailing underscores, and only then. */
  lemma SnakeShapesSurvive<V(!new)>(fields: seq<string>, x: V, y: V)
    requires x != y && forall f :: f in fields ==> SnakeCase(RStrip(f))
    ensures (forall record: map<string, V> :: Shaped(fields, record) ==>
                FromWire(fields, ToWire(fields, record)) == Some(record))
            <==> forall f, g :: f in fields && g in fields && RStrip(f) == RStrip(g) ==> f == g
  {
    RoundTrip(fields, x, y);
    DistinguishedIff(fields);
  }
}
