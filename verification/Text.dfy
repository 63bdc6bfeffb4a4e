/** Strings as the two runtimes see them: option and result types, whitespace trimming, and
    the order in which both JSON encoders list object keys. */
module Text {
  datatype Option<+T> = None | Some(value: T)

  /** The services are written in two languages whose string libraries differ in detail. */
  datatype Runtime = Python | Go

  /** U+001C to U+001F: whitespace for Python's `str.strip`, ordinary characters for Go's
      `strings.TrimSpace`. */
  predicate IsSeparatorControl(c: char) {
    '\U{1C}' <= c <= '\U{1F}'
  }

  /** What `unicode.IsSpace` accepts; Python's set is this one and the separator controls. */
  predicate IsSpace(rt: Runtime, c: char) {
    || '\U{9}' <= c <= '\U{D}'
    || c == ' ' || c == '\U{85}' || c == '\U{A0}' || c == '\U{1680}'
    || '\U{2000}' <= c <= '\U{200A}'
    || c == '\U{2028}' || c == '\U{2029}' || c == '\U{202F}' || c == '\U{205F}' || c == '\U{3000}'
    || (rt.Python? && IsSeparatorControl(c))
  }

  /** The White_Space characters of Unicode by code point, and the four Python adds. */
  lemma SpacesAre(c: char)
    ensures IsSpace(Go, c) <==>
            c as int in {9, 10, 11, 12, 13, 32, 133, 160, 5760, 8192, 8193, 8194, 8195, 8196, 8197, 8198, 8199, 8200,
                         8201, 8202, 8232, 8233, 8239, 8287, 12288}
    ensures IsSpace(Python, c) <==> IsSpace(Go, c) || c as int in {28, 29, 30, 31}
  {
  }

  function TrimLeft(rt: Runtime, s: string): string {
    if s == "" || !IsSpace(rt, s[0]) then s else TrimLeft(rt, s[1..])
  }

  function TrimRight(rt: Runtime, s: string): string {
    if s == "" then ""
    else
      var rest := TrimRight(rt, s[1..]);
      if rest == "" && IsSpace(rt, s[0]) then "" else [s[0]] + rest
  }

  function Trim(rt: Runtime, s: string): string {
    TrimRight(rt, TrimLeft(rt, s))
  }

  /** Nothing at either end is whitespace for the runtime. */
  predicate IsTrimmed(rt: Runtime, s: string) {
    s == "" || (!IsSpace(rt, s[0]) && !IsSpace(rt, s[|s| - 1]))
  }

  lemma {:induction false} TrimLeftStart(rt: Runtime, s: string)
    ensures TrimLeft(rt, s) == "" || !IsSpace(rt, TrimLeft(rt, s)[0])
    ensures |TrimLeft(rt, s)| <= |s|
    ensures TrimLeft(rt, s) == s[|s| - |TrimLeft(rt, s)|..]
  {
    if s != "" && IsSpace(rt, s[0]) {
      TrimLeftStart(rt, s[1..]);
    }
  }

  lemma {:induction false} TrimRightShape(rt: Runtime, s: string)
    ensures |TrimRight(rt, s)| <= |s|
    ensures TrimRight(rt, s) == s[..|TrimRight(rt, s)|]
    ensures TrimRight(rt, s) == "" || !IsSpace(rt, TrimRight(rt, s)[|TrimRight(rt, s)| - 1])
    ensures forall i :: |TrimRight(rt, s)| <= i < |s| ==> IsSpace(rt, s[i])
  {
    if s != "" {
      TrimRightShape(rt, s[1..]);
      var rest := TrimRight(rt, s[1..]);
      forall i | |TrimRight(rt, s)| <= i < |s|
        ensures IsSpace(rt, s[i])
      {
        if i > 0 {
          assert s[i] == s[1..][i - 1];
        }
      }
    }
  }

  lemma TrimIsTrimmed(rt: Runtime, s: string)
    ensures IsTrimmed(rt, Trim(rt, s))
    ensures forall c :: c in Trim(rt, s) ==> c in s
  {
    TrimLeftStart(rt, s);
    TrimRightShape(rt, TrimLeft(rt, s));
  }

  /** Trimming takes whitespace off both ends, all of it, and nothing else. */
  lemma TrimExactly(rt: Runtime, s: string, t: string)
    ensures t == Trim(rt, s) <==> IsTrimmed(rt, t) && exists a, b :: SplitsAs(rt, s, a, t, b)
  {
    TrimIsTrimmed(rt, s);
    TrimLeftStart(rt, s);
    var m := TrimLeft(rt, s);
    TrimLeftSpace(rt, s);
    TrimRightShape(rt, m);
    assert SplitsAs(rt, s, s[..|s| - |m|], Trim(rt, s), m[|Trim(rt, s)|..]);
    if IsTrimmed(rt, t) && exists a, b :: SplitsAs(rt, s, a, t, b) {
      var a, b :| SplitsAs(rt, s, a, t, b);
      TrimOfSplit(rt, a, t, b);
    }
  }

  ghost predicate SplitsAs(rt: Runtime, s: string, a: string, t: string, b: string) {
    s == a + t + b && AllSpace(rt, a) && AllSpace(rt, b)
  }

  predicate AllSpace(rt: Runtime, s: string) {
    forall i :: 0 <= i < |s| ==> IsSpace(rt, s[i])
  }

  lemma {:induction false} TrimLeftSpace(rt: Runtime, s: string)
    ensures |TrimLeft(rt, s)| <= |s| && AllSpace(rt, s[..|s| - |TrimLeft(rt, s)|])
  {
    if s != "" && IsSpace(rt, s[0]) {
      TrimLeftSpace(rt, s[1..]);
      var n := |s| - |TrimLeft(rt, s)|;
      assert s[..n] == [s[0]] + s[1..][..n - 1];
    }
  }

  lemma {:induction false} TrimLeftSkips(rt: Runtime, a: string, rest: string)
    requires AllSpace(rt, a)
    ensures TrimLeft(rt, a + rest) == TrimLeft(rt, rest)
  {
    if a == "" {
      assert a + rest == rest;
    } else {
      assert (a + rest)[1..] == a[1..] + rest;
      TrimLeftSkips(rt, a[1..], rest);
    }
  }

  lemma {:induction false} TrimRightOfSpace(rt: Runtime, b: string)
    requires AllSpace(rt, b)
    ensures TrimRight(rt, b) == ""
  {
    if b != "" {
      TrimRightOfSpace(rt, b[1..]);
    }
  }

  lemma {:induction false} TrimRightDrops(rt: Runtime, t: string, b: string)
    requires AllSpace(rt, b) && t != "" && !IsSpace(rt, t[|t| - 1])
    ensures TrimRight(rt, t + b) == t
  {
    assert (t + b)[1..] == t[1..] + b;
    if |t| == 1 {
      assert t[1..] + b == b;
      TrimRightOfSpace(rt, b);
    } else {
      TrimRightDrops(rt, t[1..], b);
    }
    assert [t[0]] + t[1..] == t;
  }

  lemma {:induction false} TrimLeftOfSpace(rt: Runtime, b: string)
    requires AllSpace(rt, b)
    ensures TrimLeft(rt, b) == ""
  {
    if b != "" {
      TrimLeftOfSpace(rt, b[1..]);
    }
  }

  lemma TrimOfSplit(rt: Runtime, a: string, t: string, b: string)
    requires AllSpace(rt, a) && AllSpace(rt, b) && IsTrimmed(rt, t)
    ensures Trim(rt, a + t + b) == t
  {
    assert a + t + b == a + (t + b);
    TrimLeftSkips(rt, a, t + b);
    if t == "" {
      assert t + b == b;
      TrimLeftOfSpace(rt, b);
    } else {
      TrimRightDrops(rt, t, b);
    }
  }

  lemma {:induction false} TrimRightFixpoint(rt: Runtime, s: string)
    requires s == "" || !IsSpace(rt, s[|s| - 1])
    ensures TrimRight(rt, s) == s
  {
    if |s| > 1 {
      TrimRightFixpoint(rt, s[1..]);
    }
  }

  lemma TrimFixpoint(rt: Runtime, s: string)
    ensures Trim(rt, s) == s <==> IsTrimmed(rt, s)
  {
    if IsTrimmed(rt, s) {
      TrimRightFixpoint(rt, s);
    } else {
      TrimIsTrimmed(rt, s);
    }
  }

  lemma {:induction false} PythonTrimsLeftFurther(s: string)
    ensures TrimLeft(Python, TrimLeft(Go, s)) == TrimLeft(Python, s)
  {
    if s != "" && IsSpace(Go, s[0]) {
      PythonTrimsLeftFurther(s[1..]);
    }
  }

  lemma {:induction false} PythonTrimsRightFurther(s: string)
    ensures TrimRight(Python, TrimRight(Go, s)) == TrimRight(Python, s)
  {
    if s != "" {
      PythonTrimsRightFurther(s[1..]);
    }
  }

  lemma {:induction false} TrimsCommute(s: string)
    ensures TrimLeft(Python, TrimRight(Go, s)) == TrimRight(Go, TrimLeft(Python, s))
  {
    if s != "" {
      TrimsCommute(s[1..]);
      var rest := TrimRight(Go, s[1..]);
      if IsSpace(Python, s[0]) {
        assert TrimLeft(Python, s) == TrimLeft(Python, s[1..]);
        if !(rest == "" && IsSpace(Go, s[0])) {
          assert ([s[0]] + rest)[1..] == rest;
        }
      }
    }
  }

  /** Trimming in Go first does not change what Python's trim returns. */
  lemma PythonTrimAfterGo(s: string)
    ensures Trim(Python, Trim(Go, s)) == Trim(Python, s)
  {
    var l := TrimLeft(Go, s);
    TrimsCommute(l);
    PythonTrimsLeftFurther(s);
    PythonTrimsRightFurther(TrimLeft(Python, s));
  }

  /** The two trims agree exactly when Go's result does not start or end with a separator control. */
  lemma TrimsAgreeExactly(s: string)
    ensures Trim(Python, s) == Trim(Go, s) <==> IsTrimmed(Python, Trim(Go, s))
  {
    PythonTrimAfterGo(s);
    TrimFixpoint(Python, Trim(Go, s));
  }

  /** Order of object keys: by code point, a proper prefix first. */
  predicate Before(a: string, b: string) {
    if b == "" then false
    else if a == "" then true
    else a[0] < b[0] || (a[0] == b[0] && Before(a[1..], b[1..]))
  }

  lemma {:induction false} BeforeTransitive(a: string, b: string, c: string)
    requires Before(a, b) && Before(b, c)
    ensures Before(a, c)
  {
    if a != "" && a[0] == b[0] == c[0] {
      BeforeTransitive(a[1..], b[1..], c[1..]);
    }
  }

  lemma {:induction false} BeforeIrreflexive(a: string)
    ensures !Before(a, a)
  {
    if a != "" {
      BeforeIrreflexive(a[1..]);
    }
  }

  lemma {:induction false} BeforeTotal(a: string, b: string)
    requires a != b
    ensures Before(a, b) || Before(b, a)
  {
    if a != "" && b != "" && a[0] == b[0] {
      assert a == [a[0]] + a[1..] && b == [b[0]] + b[1..];
      BeforeTotal(a[1..], b[1..]);
    }
  }

  /** Keys in strictly increasing order, as both encoders emit them. */
  ghost predicate Increasing(keys: seq<string>) {
    forall i, j :: 0 <= i < j < |keys| ==> Before(keys[i], keys[j])
  }

  /** Two increasing listings of one set of keys are the same listing. */
  lemma {:induction false} IncreasingListingUnique(a: seq<string>, b: seq<string>)
    requires Increasing(a) && Increasing(b)
    requires forall k :: k in a <==> k in b
    ensures a == b
  {
    assert a != [] ==> a[0] in a;
    assert b != [] ==> b[0] in b;
    if a != [] {
      SameHead(a, b);
      forall k ensures k in a[1..] <==> k in b[1..] {
        BeforeIrreflexive(a[0]);
        if k in a[1..] {
          assert k in a;
          assert Before(a[0], k);
        }
        if k in b[1..] {
          assert k in b;
          assert Before(b[0], k);
        }
      }
      IncreasingListingUnique(a[1..], b[1..]);
      assert a == [a[0]] + a[1..] && b == [b[0]] + b[1..];
    }
  }

  lemma SameHead(a: seq<string>, b: seq<string>)
    requires Increasing(a) && Increasing(b)
    requires a != [] && b != [] && a[0] in b && b[0] in a
    ensures a[0] == b[0]
  {
    if a[0] != b[0] {
      assert Before(b[0], a[0]) && Before(a[0], b[0]);
      BeforeTransitive(a[0], b[0], a[0]);
      BeforeIrreflexive(a[0]);
      assert false;
    }
  }
}
