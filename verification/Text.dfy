/** The parts of Go's `strings` package on which the protocol's decisions rest. */
module Text {

  /** `unicode.IsSpace`: the code points of the White_Space property. */
  predicate IsSpace(c: char) {
    || '\t' <= c <= '\r' || c == ' '
    || c == '\U{85}' || c == '\U{A0}' || c == '\U{1680}'
    || '\U{2000}' <= c <= '\U{200A}'
    || c == '\U{2028}' || c == '\U{2029}' || c == '\U{202F}' || c == '\U{205F}' || c == '\U{3000}'
  }

  predicate OccursAt(s: string, w: string, i: int) {
    0 <= i && i + |w| <= |s| && s[i..i + |w|] == w
  }

  /** `strings.Contains`. */
  predicate Contains(s: string, w: string) {
    exists i :: 0 <= i <= |s| && OccursAt(s, w, i)
  }

  ghost predicate SpaceFree(w: string) {
    forall i :: 0 <= i < |w| ==> !IsSpace(w[i])
  }

  /** Length of the longest prefix without white space. */
  function WordLength(s: string): (n: nat)
    ensures n <= |s|
    ensures SpaceFree(s[..n])
    ensures n < |s| ==> IsSpace(s[n])
  {
    if s == "" || IsSpace(s[0]) then 0 else 1 + WordLength(s[1..])
  }

  /** `strings.Fields`: the maximal runs of characters that are not white space. */
  function Fields(s: string): (fs: seq<string>)
    decreases |s|
  {
    if s == "" then []
    else if IsSpace(s[0]) then Fields(s[1..])
    else
      var n := WordLength(s);
      [s[..n]] + Fields(s[n..])
  }

  /** Every field is non-empty and free of white space. */
  lemma {:induction false} FieldsAreWords(s: string, f: string)
    requires f in Fields(s)
    ensures f != "" && SpaceFree(f)
    decreases |s|
  {
    if IsSpace(s[0]) {
      FieldsAreWords(s[1..], f);
    } else {
      var n := WordLength(s);
      if f != s[..n] {
        FieldsAreWords(s[n..], f);
      }
    }
  }

  lemma OccursInSuffix(s: string, w: string, n: nat, i: int)
    requires n <= |s|
    ensures OccursAt(s[n..], w, i) ==> OccursAt(s, w, i + n)
    ensures n <= i && OccursAt(s, w, i) ==> OccursAt(s[n..], w, i - n)
  {
    if OccursAt(s[n..], w, i) {
      assert s[n..][i..i + |w|] == s[i + n..i + n + |w|];
    }
    if n <= i && OccursAt(s, w, i) {
      assert s[n..][i - n..i - n + |w|] == s[i..i + |w|];
    }
  }

  /** A non-empty occurrence without white space lies inside the first word or after it. */
  lemma OccurrenceAvoidsGap(s: string, w: string, n: nat, i: int)
    requires w != "" && SpaceFree(w) && OccursAt(s, w, i)
    requires n < |s| ==> IsSpace(s[n])
    requires n <= |s|
    ensures i + |w| <= n || n < i
  {
  }

  /** A word occurs in a text exactly when it occurs inside one of the text's fields. */
  lemma {:induction false} WordOccursInField(s: string, w: string)
    requires w != "" && SpaceFree(w)
    ensures Contains(s, w) <==> exists f :: f in Fields(s) && Contains(f, w)
    decreases |s|
  {
    if s == "" {
    } else if IsSpace(s[0]) {
      WordOccursInField(s[1..], w);
      SuffixContains(s, w, 1);
      forall i | OccursAt(s, w, i)
        ensures OccursAt(s[1..], w, i - 1)
      {
        OccurrenceAvoidsGap(s, w, 0, i);
        OccursInSuffix(s, w, 1, i);
      }
    } else {
      var n := WordLength(s);
      WordOccursInField(s[n..], w);
      SuffixContains(s, w, n);
      assert Fields(s) == [s[..n]] + Fields(s[n..]);
      forall i | OccursAt(s, w, i)
        ensures OccursAt(s[..n], w, i) || OccursAt(s[n..], w, i - n)
      {
        OccurrenceAvoidsGap(s, w, n, i);
        if i + |w| <= n {
          assert s[..n][i..i + |w|] == s[i..i + |w|];
        } else {
          OccursInSuffix(s, w, n, i);
        }
      }
      forall i | OccursAt(s[..n], w, i)
        ensures OccursAt(s, w, i)
      {
        assert s[..n][i..i + |w|] == s[i..i + |w|];
      }
      if Contains(s, w) {
        var i :| OccursAt(s, w, i);
        if OccursAt(s[..n], w, i) {
          assert s[..n] in Fields(s) && Contains(s[..n], w);
        } else {
          assert Contains(s[n..], w);
          var f :| f in Fields(s[n..]) && Contains(f, w);
          assert f in Fields(s);
        }
      }
      if f :| f in Fields(s) && Contains(f, w) {
        if f != s[..n] {
          assert f in Fields(s[n..]);
        }
      }
    }
  }

  lemma SuffixContains(s: string, w: string, n: nat)
    requires n <= |s|
    ensures Contains(s[n..], w) ==> Contains(s, w)
  {
    forall i | OccursAt(s[n..], w, i)
      ensures OccursAt(s, w, i + n)
    {
      OccursInSuffix(s, w, n, i);
    }
  }

  // ----- comma-separated lists -----

  predicate CommaFree(s: string) {
    ',' !in s
  }

  /** `strings.TrimLeft` and `strings.TrimRight` with white space as the cut set. */
  function TrimLeft(s: string): string {
    if s != "" && IsSpace(s[0]) then TrimLeft(s[1..]) else s
  }

  function TrimRight(s: string): string {
    if s != "" && IsSpace(s[|s| - 1]) then TrimRight(s[..|s| - 1]) else s
  }

  /** `strings.TrimSpace`. */
  function Trim(s: string): string {
    TrimRight(TrimLeft(s))
  }

  /** No white space at either end. */
  predicate Trimmed(s: string) {
    s == "" || (!IsSpace(s[0]) && !IsSpace(s[|s| - 1]))
  }

  ghost predicate Blank(s: string) {
    forall i :: 0 <= i < |s| ==> IsSpace(s[i])
  }

  /** `strings.Split(s, ",")`: one more part than there are commas. */
  function Split(s: string): (parts: seq<string>)
    ensures |parts| > 0
  {
    if s == "" then [""]
    else
      var rest := Split(s[1..]);
      if s[0] == ',' then [""] + rest else [[s[0]] + rest[0]] + rest[1..]
  }

  /** `strings.Join(parts, ",")`. */
  function Join(parts: seq<string>): string {
    if parts == [] then ""
    else if |parts| == 1 then parts[0]
    else parts[0] + "," + Join(parts[1..])
  }

  lemma {:induction false} TrimLeftProperties(s: string)
    ensures TrimLeft(s) == "" || !IsSpace(TrimLeft(s)[0])
    ensures TrimLeft(s) == "" <==> Blank(s)
    ensures forall c :: c in TrimLeft(s) ==> c in s
  {
    if s != "" && IsSpace(s[0]) {
      TrimLeftProperties(s[1..]);
      if Blank(s[1..]) {
        assert forall i :: 0 < i < |s| ==> s[i] == s[1..][i - 1];
      }
      if Blank(s) {
        assert Blank(s[1..]);
      }
    }
  }

  lemma {:induction false} TrimRightProperties(s: string)
    ensures TrimRight(s) == "" || !IsSpace(TrimRight(s)[|TrimRight(s)| - 1])
    ensures s != "" && !IsSpace(s[0]) ==> TrimRight(s) != "" && TrimRight(s)[0] == s[0]
    ensures forall c :: c in TrimRight(s) ==> c in s
  {
    if s != "" && IsSpace(s[|s| - 1]) {
      TrimRightProperties(s[..|s| - 1]);
    }
  }

  /** Trimming leaves a trimmed text, adds no comma, changes nothing that is trimmed already,
      and leaves nothing exactly of a blank text. */
  lemma TrimProperties(s: string)
    ensures Trimmed(Trim(s))
    ensures CommaFree(s) ==> CommaFree(Trim(s))
    ensures Trimmed(s) ==> Trim(s) == s
    ensures Trim(s) == "" <==> Blank(s)
  {
    TrimLeftProperties(s);
    TrimRightProperties(TrimLeft(s));
  }

  lemma {:induction false} SplitParts(s: string)
    ensures forall i :: 0 <= i < |Split(s)| ==> CommaFree(Split(s)[i])
    ensures CommaFree(s) <==> |Split(s)| == 1
    ensures CommaFree(s) ==> Split(s) == [s]
  {
    if s == "" {
    } else {
      SplitParts(s[1..]);
      assert [s[0]] + s[1..] == s;
    }
  }

  /** Splitting undoes joining for a non-empty list of comma-free parts. */
  lemma {:induction false} SplitJoin(parts: seq<string>)
    requires parts != []
    requires forall i :: 0 <= i < |parts| ==> CommaFree(parts[i])
    ensures Split(Join(parts)) == parts
  {
    if |parts| == 1 {
      SplitParts(parts[0]);
    } else {
      SplitJoin(parts[1..]);
      SplitPrefix(parts[0], Join(parts[1..]));
    }
  }

  lemma {:induction false} SplitPrefix(p: string, rest: string)
    requires CommaFree(p)
    ensures Split(p + "," + rest) == [p] + Split(rest)
  {
    var s := p + "," + rest;
    if p == "" {
      assert s[1..] == rest;
    } else {
      assert s[1..] == p[1..] + "," + rest;
      SplitPrefix(p[1..], rest);
      assert [p[0]] + p[1..] == p;
    }
  }
}
