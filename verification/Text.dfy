/** String operations of the Go standard library that the gateway's decisions rest on. */
module Text {

  /** Unicode White_Space, as `strings.TrimSpace` uses it. */
  predicate IsSpace(c: char) {
    || '\t' <= c <= '\r' || c == ' ' || c == '\U{85}' || c == '\U{A0}' || c == '\U{1680}'
    || '\U{2000}' <= c <= '\U{200A}' || c == '\U{2028}' || c == '\U{2029}'
    || c == '\U{202F}' || c == '\U{205F}' || c == '\U{3000}'
  }

  /** `strings.TrimSpace(s) == ""` */
  predicate Blank(s: string) {
    forall i :: 0 <= i < |s| ==> IsSpace(s[i])
  }

  function Trim(s: string): string {
    if s == [] then s
    else if IsSpace(s[0]) then Trim(s[1..])
    else if IsSpace(s[|s| - 1]) then Trim(s[..|s| - 1])
    else s
  }

  /** Positions `i` to `j` of `s` are what remains when the space on both sides is taken away. */
  ghost predicate Core(s: string, i: int, j: int) {
    && 0 <= i <= j <= |s| && Blank(s[..i]) && Blank(s[j..])
    && (i < j ==> !IsSpace(s[i]) && !IsSpace(s[j - 1]))
  }

  lemma {:induction false} TrimMeans(s: string) returns (i: int, j: int)
    ensures Core(s, i, j) && Trim(s) == s[i..j]
    decreases |s|
  {
    i, j := 0, |s|;
    if s != [] && IsSpace(s[0]) {
      i, j := TrimMeans(s[1..]);
      CoreAfterSpace(s, i, j);
      i, j := i + 1, j + 1;
    } else if s != [] && IsSpace(s[|s| - 1]) {
      var n := |s| - 1;
      i, j := TrimMeans(s[..n]);
      CoreBeforeSpace(s, i, j);
    }
  }

  lemma CoreAfterSpace(s: string, i: int, j: int)
    requires s != [] && IsSpace(s[0]) && Core(s[1..], i, j)
    ensures Core(s, i + 1, j + 1) && s[1..][i..j] == s[i + 1..j + 1]
  {
    assert s[..i + 1] == [s[0]] + s[1..][..i];
    assert s[j + 1..] == s[1..][j..];
  }

  lemma CoreBeforeSpace(s: string, i: int, j: int)
    requires s != [] && IsSpace(s[|s| - 1]) && Core(s[..|s| - 1], i, j)
    ensures Core(s, i, j) && s[..|s| - 1][i..j] == s[i..j]
  {
    var n := |s| - 1;
    assert s[..i] == s[..n][..i];
    assert s[j..] == s[..n][j..] + [s[n]];
  }

  /** A text is blank exactly when trimming leaves nothing. */
  lemma BlankMeans(s: string)
    ensures Trim(s) == "" <==> Blank(s)
  {
    var i, j := TrimMeans(s);
    if i == j { assert s == s[..i] + s[j..]; }
  }

  function Lower(c: char): char {
    if 'A' <= c <= 'Z' then c - 'A' + 'a' else c
  }

  /** `strings.EqualFold`, on ASCII letters. */
  predicate EqualFold(a: string, b: string) {
    |a| == |b| && forall i :: 0 <= i < |a| ==> Lower(a[i]) == Lower(b[i])
  }

  /** Whether a configured list names `value`, ignoring case. */
  predicate ContainsFold(values: seq<string>, value: string) {
    exists i :: 0 <= i < |values| && EqualFold(values[i], value)
  }

  function Join(parts: seq<string>): string {
    if parts == [] then "" else if |parts| == 1 then parts[0] else parts[0] + "," + Join(parts[1..])
  }

  /** Joining two or more names always leaves a comma behind. */
  lemma JoinHasComma(parts: seq<string>)
    requires |parts| > 1
    ensures ',' in Join(parts)
  {
    assert Join(parts)[|parts[0]|] == ',';
  }

  function SafeChar(c: char): char {
    if 'A' <= c <= 'Z' || 'a' <= c <= 'z' || '0' <= c <= '9' || c == '_' || c == '.' || c == '-' then c else '_'
  }

  /** The storage path component of a table name; different tables may share one. */
  function SafeTableKey(table: string): string {
    seq(|table|, i requires 0 <= i < |table| => SafeChar(table[i]))
  }

  predicate SafeName(s: string) {
    forall i :: 0 <= i < |s| ==>
      || 'A' <= s[i] <= 'Z' || 'a' <= s[i] <= 'z' || '0' <= s[i] <= '9' || s[i] == '_' || s[i] == '.' || s[i] == '-'
  }

  /** A path component has only safe characters, and a safe name is its own. */
  lemma SafeTableKeyMeans(table: string)
    ensures SafeName(SafeTableKey(table)) && |SafeTableKey(table)| == |table|
    ensures SafeName(table) <==> SafeTableKey(table) == table
  {
    if SafeTableKey(table) == table { assert SafeName(SafeTableKey(table)); }
  }

  // ---- the order of sort.Strings -------------------------------------------------------

  predicate Less(a: string, b: string) {
    b != [] && (a == [] || a[0] < b[0] || (a[0] == b[0] && Less(a[1..], b[1..])))
  }

  lemma {:induction false} LessTotal(a: string, b: string)
    ensures a == b || Less(a, b) || Less(b, a)
  {
    if a != [] && b != [] && a[0] == b[0] {
      LessTotal(a[1..], b[1..]);
      assert a == [a[0]] + a[1..] && b == [b[0]] + b[1..];
    }
  }

  lemma {:induction false} LessTransitive(a: string, b: string, c: string)
    requires Less(a, b) && Less(b, c)
    ensures Less(a, c)
  {
    if a != [] && a[0] == b[0] && b[0] == c[0] {
      LessTransitive(a[1..], b[1..], c[1..]);
    }
  }

  lemma {:induction false} LessIrreflexive(a: string)
    ensures !Less(a, a)
  {
    if a != [] { LessIrreflexive(a[1..]); }
  }

  ghost predicate Sorted(ks: seq<string>) {
    forall i, j :: 0 <= i < j < |ks| ==> Less(ks[i], ks[j])
  }

  function Elements(ks: seq<string>): set<string> {
    set k | k in ks
  }

  function InsertSorted(ks: seq<string>, k: string): seq<string> {
    if ks == [] || Less(k, ks[0]) then [k] + ks
    else if k == ks[0] then ks
    else [ks[0]] + InsertSorted(ks[1..], k)
  }

  lemma {:induction false} InsertKeepsSorted(ks: seq<string>, k: string)
    requires Sorted(ks)
    ensures Sorted(InsertSorted(ks, k))
    ensures Elements(InsertSorted(ks, k)) == Elements(ks) + {k}
  {
    var r := InsertSorted(ks, k);
    if ks == [] {
    } else if Less(k, ks[0]) {
      forall j | 1 <= j < |ks| ensures Less(k, ks[j]) { LessTransitive(k, ks[0], ks[j]); }
    } else if k == ks[0] {
    } else {
      LessTotal(k, ks[0]);
      InsertKeepsSorted(ks[1..], k);
      var rest := InsertSorted(ks[1..], k);
      assert ks == [ks[0]] + ks[1..];
      forall j | 0 <= j < |rest| ensures Less(ks[0], rest[j]) {
        assert rest[j] in Elements(rest);
      }
      assert Elements(r) == {ks[0]} + Elements(rest);
    }
  }

  /** There is only one sorted listing of a set, so sorting map keys loses the iteration order. */
  lemma {:induction false} SortedUnique(a: seq<string>, b: seq<string>)
    requires Sorted(a) && Sorted(b) && Elements(a) == Elements(b)
    ensures a == b
  {
    EmptyElements(a);
    EmptyElements(b);
    if a != [] && b != [] {
      assert a[0] in Elements(b) && b[0] in Elements(a);
      var i :| 0 <= i < |b| && b[i] == a[0];
      var j :| 0 <= j < |a| && a[j] == b[0];
      if i > 0 && j > 0 {
        LessTransitive(a[0], b[0], a[0]);
        LessIrreflexive(a[0]);
      }
      TailElements(a);
      TailElements(b);
      SortedUnique(a[1..], b[1..]);
      assert a == [a[0]] + a[1..] && b == [b[0]] + b[1..];
    }
  }

  lemma EmptyElements(a: seq<string>)
    ensures Elements(a) == {} <==> a == []
  {
    if a != [] { assert a[0] in Elements(a); }
  }

  lemma TailElements(a: seq<string>)
    requires Sorted(a) && a != []
    ensures Elements(a[1..]) == Elements(a) - {a[0]}
  {
    LessIrreflexive(a[0]);
    assert a == [a[0]] + a[1..];
  }

  lemma {:induction false} SortedListingExists(keys: set<string>)
    ensures exists ks :: Sorted(ks) && Elements(ks) == keys
  {
    if keys == {} {
      assert Sorted([]) && Elements([]) == keys;
    } else {
      var k :| k in keys;
      SortedListingExists(keys - {k});
      var rest :| Sorted(rest) && Elements(rest) == keys - {k};
      InsertKeepsSorted(rest, k);
    }
  }

  /** `sortedKeys`: the keys of a map in `sort.Strings` order. */
  ghost function SortedKeys(keys: set<string>): (ks: seq<string>)
    ensures Sorted(ks) && Elements(ks) == keys
    ensures keys != {} ==> ks != []
  {
    SortedListingExists(keys);
    var ks :| Sorted(ks) && Elements(ks) == keys;
    ks
  }

  method SortKeys(keys: set<string>) returns (ks: seq<string>)
    ensures ks == SortedKeys(keys)
  {
    ks := [];
    var left := keys;
    while left != {}
      invariant left <= keys && Sorted(ks) && Elements(ks) == keys - left
      decreases left
    {
      var k :| k in left;
      InsertKeepsSorted(ks, k);
      ks, left := InsertSorted(ks, k), left - {k};
    }
    SortedUnique(ks, SortedKeys(keys));
  }
}
