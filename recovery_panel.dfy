/**
 * The guardian-list parsing of the recovery panel (RecoveryPanel.jsx, `handleSetGuardians`): the
 * input is split at commas, every piece is trimmed, and the empty pieces are dropped. Turning each
 * entry into a principal happens later, in a library call, and is not part of this model.
 */
module RecoveryPanel {

  /** The characters `String.prototype.trim` removes: JavaScript's white space and line terminators. */
  predicate IsJsWhitespace(c: char) {
    var n := c as int;
    || n == 0x09 || n == 0x0A || n == 0x0B || n == 0x0C || n == 0x0D || n == 0x20
    || n == 0xA0 || n == 0x1680 || (0x2000 <= n <= 0x200A) || n == 0x2028 || n == 0x2029
    || n == 0x202F || n == 0x205F || n == 0x3000 || n == 0xFEFF
  }

  predicate AllWhitespace(s: string) {
    forall i :: 0 <= i < |s| ==> IsJsWhitespace(s[i])
  }

  /** `s.split(sep)`: the pieces between separators; the empty string splits into one empty piece. */
  function Split(s: string, sep: char): (parts: seq<string>)
    ensures |parts| >= 1
    ensures forall i :: 0 <= i < |parts| ==> sep !in parts[i]
    decreases |s|
  {
    if s == [] then [[]]
    else
      var rest := Split(s[1..], sep);
      if s[0] == sep then [[]] + rest else [[s[0]] + rest[0]] + rest[1..]
  }

  /** `join`: the pieces in order, with the separator between neighbours. */
  function Join(parts: seq<string>, sep: char): string
    requires |parts| >= 1
    decreases |parts|
  {
    if |parts| == 1 then parts[0] else parts[0] + [sep] + Join(parts[1..], sep)
  }

  /** Joining the pieces with the separator gives the input back: nothing is lost or reordered. */
  lemma {:induction false} SplitJoin(s: string, sep: char)
    ensures Join(Split(s, sep), sep) == s
    decreases |s|
  {
    if s != [] {
      var rest := Split(s[1..], sep);
      SplitJoin(s[1..], sep);
      if s[0] != sep && |rest| > 1 {
        assert ([s[0]] + rest[0]) + [sep] + Join(rest[1..], sep) == [s[0]] + (rest[0] + [sep] + Join(rest[1..], sep));
        assert rest[1..][1..] == rest[2..];
      }
      if s[0] != sep {
        assert s == [s[0]] + s[1..];
      }
    }
  }

  /** Splitting at one more separator splits each side on its own. */
  lemma {:induction false} SplitAppend(a: string, b: string, sep: char)
    ensures Split(a + [sep] + b, sep) == Split(a, sep) + Split(b, sep)
    decreases |a|
  {
    if a == [] {
      assert [] + [sep] + b == [sep] + b;
      assert ([sep] + b)[1..] == b;
    } else {
      assert (a + [sep] + b)[1..] == a[1..] + [sep] + b;
      SplitAppend(a[1..], b, sep);
    }
  }

  function TrimStart(s: string): (r: string)
    ensures |r| <= |s| && r == s[|s| - |r|..]
    ensures forall i :: 0 <= i < |s| - |r| ==> IsJsWhitespace(s[i])
    ensures r != [] ==> !IsJsWhitespace(r[0])
    decreases |s|
  {
    if s != [] && IsJsWhitespace(s[0]) then TrimStart(s[1..]) else s
  }

  function TrimEnd(s: string): (r: string)
    ensures |r| <= |s| && r == s[..|r|]
    ensures forall i :: |r| <= i < |s| ==> IsJsWhitespace(s[i])
    ensures r != [] ==> !IsJsWhitespace(r[|r| - 1])
    decreases |s|
  {
    if s != [] && IsJsWhitespace(s[|s| - 1]) then TrimEnd(s[..|s| - 1]) else s
  }

  /** `s.trim()`: a stretch of `s` with the white space at both ends removed. */
  function Trim(s: string): (r: string)
    ensures r != [] ==> !IsJsWhitespace(r[0]) && !IsJsWhitespace(r[|r| - 1])
    ensures AllWhitespace(s) ==> r == []
  {
    var t := TrimStart(s);
    TrimEnd(t)
  }

  /** Trimming only removes characters, so it introduces none. */
  lemma TrimIntroducesNothing(s: string, c: char)
    requires c !in s
    ensures c !in Trim(s)
  {
    var t := TrimStart(s);
    assert c !in t;
  }

  /** `.filter(Boolean)` on strings: drops the empty ones and keeps the order of the rest. */
  function NonEmpty(xs: seq<string>): (r: seq<string>)
    ensures forall i :: 0 <= i < |r| ==> r[i] != [] && r[i] in xs
    ensures forall x :: x in xs && x != [] ==> x in r
    ensures |r| <= |xs|
  {
    if xs == [] then [] else (if xs[0] == [] then [] else [xs[0]]) + NonEmpty(xs[1..])
  }

  lemma {:induction false} NonEmptyAppend(xs: seq<string>, ys: seq<string>)
    ensures NonEmpty(xs + ys) == NonEmpty(xs) + NonEmpty(ys)
    decreases |xs|
  {
    if xs == [] {
      assert xs + ys == ys;
    } else {
      assert (xs + ys)[0] == xs[0] && (xs + ys)[1..] == xs[1..] + ys;
      NonEmptyAppend(xs[1..], ys);
    }
  }

  /** Trims every piece, keeping their number and order. */
  function TrimEach(parts: seq<string>): (r: seq<string>)
    ensures |r| == |parts| && forall i :: 0 <= i < |parts| ==> r[i] == Trim(parts[i])
  {
    if parts == [] then [] else [Trim(parts[0])] + TrimEach(parts[1..])
  }

  lemma {:induction false} TrimEachAppend(xs: seq<string>, ys: seq<string>)
    ensures TrimEach(xs + ys) == TrimEach(xs) + TrimEach(ys)
    decreases |xs|
  {
    if xs == [] {
      assert xs + ys == ys;
    } else {
      assert (xs + ys)[0] == xs[0] && (xs + ys)[1..] == xs[1..] + ys;
      TrimEachAppend(xs[1..], ys);
    }
  }

  /** The list `handleSetGuardians` hands on: trimmed, non-empty, comma-free entries. */
  function ParseGuardianList(input: string): (r: seq<string>)
    ensures forall i :: 0 <= i < |r| ==> r[i] != [] && ',' !in r[i]
    ensures forall i :: 0 <= i < |r| ==> !IsJsWhitespace(r[i][0]) && !IsJsWhitespace(r[i][|r[i]| - 1])
  {
    var parts := Split(input, ',');
    var trimmed := TrimEach(parts);
    forall j | 0 <= j < |parts|
      ensures ',' !in trimmed[j]
    {
      TrimIntroducesNothing(parts[j], ',');
    }
    NonEmpty(trimmed)
  }

  /** Every piece between commas that is not blank is kept, trimmed. */
  lemma ParseKeepsEveryEntry(input: string, j: nat)
    requires j < |Split(input, ',')|
    requires Trim(Split(input, ',')[j]) != []
    ensures Trim(Split(input, ',')[j]) in ParseGuardianList(input)
  {
    var trimmed := TrimEach(Split(input, ','));
    assert trimmed[j] in trimmed;
  }

  /** A string without the separator is one piece. */
  lemma {:induction false} SplitWithoutSeparator(s: string, sep: char)
    requires sep !in s
    ensures Split(s, sep) == [s]
    decreases |s|
  {
    if s != [] {
      SplitWithoutSeparator(s[1..], sep);
      assert s == [s[0]] + s[1..];
    }
  }

  /** A comma-free input gives its trimmed text as the one guardian, unless that is empty. */
  lemma ParseSingle(a: string)
    requires ',' !in a
    ensures ParseGuardianList(a) == if Trim(a) == [] then [] else [Trim(a)]
  {
    SplitWithoutSeparator(a, ',');
    assert TrimEach([a]) == [Trim(a)];
  }

  /** Entries keep their order: the entries before a comma come first. */
  lemma ParseKeepsOrder(a: string, b: string)
    ensures ParseGuardianList(a + "," + b) == ParseGuardianList(a) + ParseGuardianList(b)
  {
    assert a + "," + b == a + [','] + b;
    SplitAppend(a, b, ',');
    var pa, pb := Split(a, ','), Split(b, ',');
    TrimEachAppend(pa, pb);
    NonEmptyAppend(TrimEach(pa), TrimEach(pb));
  }

  /** Every piece of a string made of separators and white space is white space only. */
  lemma {:induction false} SplitOfBlank(s: string, sep: char)
    requires forall i :: 0 <= i < |s| ==> s[i] == sep || IsJsWhitespace(s[i])
    ensures forall k :: 0 <= k < |Split(s, sep)| ==> AllWhitespace(Split(s, sep)[k])
    decreases |s|
  {
    if s != [] {
      SplitOfBlank(s[1..], sep);
      var rest := Split(s[1..], sep);
      if s[0] != sep {
        assert AllWhitespace(rest[0]);
        assert AllWhitespace([s[0]] + rest[0]) by {
          assert forall i :: 1 <= i < |[s[0]] + rest[0]| ==> ([s[0]] + rest[0])[i] == rest[0][i - 1];
        }
      }
    }
  }

  /** Input made only of commas and white space gives no guardians. */
  lemma ParseBlankIsEmpty(input: string)
    requires forall i :: 0 <= i < |input| ==> input[i] == ',' || IsJsWhitespace(input[i])
    ensures ParseGuardianList(input) == []
  {
    SplitOfBlank(input, ',');
    BlankPartsGiveNothing(Split(input, ','));
  }

  lemma {:induction false} BlankPartsGiveNothing(parts: seq<string>)
    requires forall k :: 0 <= k < |parts| ==> AllWhitespace(parts[k])
    ensures NonEmpty(TrimEach(parts)) == []
    decreases |parts|
  {
    if parts != [] {
      BlankPartsGiveNothing(parts[1..]);
      var xs := TrimEach(parts);
      assert xs[0] == [] && xs[1..] == TrimEach(parts[1..]);
    }
  }
}
