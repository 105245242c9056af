/** Text utilities the hub uses on controller replies: the `split` helper
    built on `std::getline`, and Micro-Manager's `CDeviceUtils::Tokenize`. */
module Text {

  /** Index of the first `d` in `s`, or `|s|` when there is none. */
  function Find(s: string, d: char): (i: nat)
    ensures i <= |s|
    ensures i < |s| ==> s[i] == d
    ensures forall k :: 0 <= k < i ==> s[k] != d
  {
    if s == [] then 0
    else if s[0] == d then 0
    else 1 + Find(s[1..], d)
  }

  /** The pieces that repeated `std::getline(ss, item, d)` extracts from `s`:
      each call reads up to the next `d` (which it consumes) or to the end;
      a call that reaches the end without reading a character fails, so a
      trailing `d` yields no empty last piece and the empty string no piece. */
  function Pieces(s: string, d: char): (r: seq<string>)
    ensures |r| == 0 <==> |s| == 0
    decreases |s|
  {
    if s == [] then []
    else
      var i := Find(s, d);
      if i == |s| then [s] else [s[..i]] + Pieces(s[i + 1..], d)
  }

  /** The pieces glued back together with `d` between consecutive pieces. */
  function Join(pieces: seq<string>, d: char): string {
    if pieces == [] then ""
    else if |pieces| == 1 then pieces[0]
    else pieces[0] + [d] + Join(pieces[1..], d)
  }

  /** `split(s, d)`: a loop that calls getline until it fails and appends
      every extracted piece. `rest` is what the string stream has not yet
      consumed; each getline call is the inner loop. */
  method Split(s: string, d: char) returns (elems: seq<string>)
    ensures elems == Pieces(s, d)
  {
    elems := [];
    var rest := s;
    while rest != []
      invariant elems + Pieces(rest, d) == Pieces(s, d)
      decreases |rest|
    {
      var q := 0;
      while q < |rest| && rest[q] != d
        invariant q <= |rest|
        invariant forall k :: 0 <= k < q ==> rest[k] != d
      {
        q := q + 1;
      }
      PiecesStep(rest, d, q);
      if q < |rest| {
        elems := elems + [rest[..q]];
        rest := rest[q + 1..];
      } else {
        elems := elems + [rest];
        rest := [];
      }
    }
  }

  /** One getline call: the first piece runs up to the first `d`. */
  lemma PiecesStep(s: string, d: char, i: nat)
    requires s != [] && i <= |s|
    requires forall k :: 0 <= k < i ==> s[k] != d
    requires i < |s| ==> s[i] == d
    ensures i < |s| ==> Pieces(s, d) == [s[..i]] + Pieces(s[i + 1..], d)
    ensures i == |s| ==> Pieces(s, d) == [s]
  {
    FindIs(s, d, i);
  }

  /** `Find` returns the first occurrence. */
  lemma FindIs(s: string, d: char, i: nat)
    requires i <= |s|
    requires forall k :: 0 <= k < i ==> s[k] != d
    requires i < |s| ==> s[i] == d
    ensures Find(s, d) == i
  {
  }

  /** No piece contains the delimiter. */
  lemma {:induction false} PiecesExcludeDelimiter(s: string, d: char)
    ensures forall k :: 0 <= k < |Pieces(s, d)| ==> d !in Pieces(s, d)[k]
    decreases |s|
  {
    if s != [] {
      var i := Find(s, d);
      if i < |s| {
        PiecesExcludeDelimiter(s[i + 1..], d);
      }
    }
  }

  /** Joining the pieces with `d` gives `s` back, except that a trailing `d`
      is lost: it is restored exactly when `s` ends with `d`. */
  lemma {:induction false} JoinPieces(s: string, d: char)
    ensures s == [] || s[|s| - 1] != d ==> Join(Pieces(s, d), d) == s
    ensures s != [] && s[|s| - 1] == d ==> Join(Pieces(s, d), d) + [d] == s
    decreases |s|
  {
    if s != [] {
      var i := Find(s, d);
      if i < |s| {
        var head, rest := s[..i], s[i + 1..];
        assert s == head + [d] + rest;
        var tail := Pieces(rest, d);
        assert Pieces(s, d) == [head] + tail;
        JoinPieces(rest, d);
        if rest != [] {
          assert rest[|rest| - 1] == s[|s| - 1];
          JoinCons(head, tail, d);
        }
      }
    }
  }

  /** Join of a non-empty tail puts one `d` after the first piece. */
  lemma JoinCons(a: string, tail: seq<string>, d: char)
    requires tail != []
    ensures Join([a] + tail, d) == a + [d] + Join(tail, d)
  {
    assert ([a] + tail)[1..] == tail;
  }

  /** Micro-Manager's `CDeviceUtils::Tokenize(s, tokens, delims)`: the
      maximal runs of characters that are not delimiters, in order; empty
      tokens are never produced. */
  function Tokens(s: string, delims: set<char>): (r: seq<string>)
    ensures forall k :: 0 <= k < |r| ==> |r[k]| > 0
    ensures forall k :: 0 <= k < |r| ==> forall c :: c in r[k] ==> c !in delims
    decreases |s|
  {
    if s == [] then []
    else if s[0] in delims then Tokens(s[1..], delims)
    else
      var n := RunLength(s, delims);
      [s[..n]] + Tokens(s[n..], delims)
  }

  /** A delimiter separates the tokens before it from those after it. */
  lemma {:induction false} TokensSplitAt(a: string, c: char, b: string, delims: set<char>)
    requires c in delims
    ensures Tokens(a + [c] + b, delims) == Tokens(a, delims) + Tokens(b, delims)
    decreases |a|
  {
    var s := a + [c] + b;
    if a == [] {
      assert s == [c] + b && s[1..] == b;
    } else if a[0] in delims {
      assert s[0] == a[0] && s[1..] == a[1..] + [c] + b;
      TokensSplitAt(a[1..], c, b, delims);
    } else {
      var m := RunLength(a, delims);
      assert s[0] == a[0];
      RunLengthIs(s, delims, m);
      assert s[..m] == a[..m];
      if m < |a| {
        assert s[m..] == a[m..] + [c] + b;
        TokensSplitAt(a[m..], c, b, delims);
      } else {
        assert a[..m] == a && a[m..] == [];
        assert s[m..] == [c] + b && s[m..][1..] == b;
      }
    }
  }

  /** A non-empty string without delimiters is a single token. */
  lemma {:induction false} TokensOfRun(s: string, delims: set<char>)
    requires s != []
    requires forall k :: 0 <= k < |s| ==> s[k] !in delims
    ensures Tokens(s, delims) == [s]
  {
    RunLengthIs(s, delims, |s|);
    assert s[..|s|] == s && s[|s|..] == [];
  }

  /** `RunLength` stops at the first delimiter. */
  lemma {:induction false} RunLengthIs(s: string, delims: set<char>, n: nat)
    requires n <= |s|
    requires forall k :: 0 <= k < n ==> s[k] !in delims
    requires n < |s| ==> s[n] in delims
    ensures RunLength(s, delims) == n
    decreases n
  {
    if n > 0 {
      RunLengthIs(s[1..], delims, n - 1);
    }
  }

  /** Length of the leading run of non-delimiter characters. */
  function RunLength(s: string, delims: set<char>): (n: nat)
    ensures 0 < |s| && s[0] !in delims ==> 0 < n
    ensures n <= |s|
    ensures forall k :: 0 <= k < n ==> s[k] !in delims
    ensures n < |s| ==> s[n] in delims
  {
    if s == [] || s[0] in delims then 0
    else 1 + RunLength(s[1..], delims)
  }
}
