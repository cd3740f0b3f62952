/** Splitting and trimming as the standard library does it. */
module Strings {
  /** Unicode White_Space. */
  predicate IsSpace(c: char) {
    var n := c as int;
    || 9 <= n <= 13 || n == 0x20 || n == 0x85 || n == 0xA0 || n == 0x1680 || 0x2000 <= n <= 0x200A
    || n == 0x2028 || n == 0x2029 || n == 0x202F || n == 0x205F || n == 0x3000
  }

  /** The twenty-five characters. */
  lemma SpacesAre(c: char)
    ensures IsSpace(c) <==> c in "\t\n\U{0B}\U{0C}\r \U{85}\U{A0}\U{1680}" +
                                 "\U{2000}\U{2001}\U{2002}\U{2003}\U{2004}\U{2005}" +
                                 "\U{2006}\U{2007}\U{2008}\U{2009}\U{200A}" +
                                 "\U{2028}\U{2029}\U{202F}\U{205F}\U{3000}"
  {
  }

  function TrimStart(s: string): string {
    if s != [] && IsSpace(s[0]) then TrimStart(s[1..]) else s
  }

  function TrimEnd(s: string): string {
    if s != [] && IsSpace(s[|s| - 1]) then TrimEnd(s[..|s| - 1]) else s
  }

  function Trim(s: string): string {
    TrimEnd(TrimStart(s))
  }

  /** No whitespace at either end. */
  predicate Trimmed(s: string) {
    s == [] || (!IsSpace(s[0]) && !IsSpace(s[|s| - 1]))
  }

  lemma {:induction false} TrimStartResult(s: string)
    ensures TrimStart(s) == [] || !IsSpace(TrimStart(s)[0])
    ensures |TrimStart(s)| <= |s| && TrimStart(s) == s[|s| - |TrimStart(s)|..]
    ensures (forall c :: c in s ==> IsSpace(c)) <==> TrimStart(s) == []
  {
    if s != [] {
      assert s == [s[0]] + s[1..];
      if IsSpace(s[0]) {
        TrimStartResult(s[1..]);
      }
    }
  }

  lemma {:induction false} TrimEndResult(s: string)
    ensures TrimEnd(s) == [] || !IsSpace(TrimEnd(s)[|TrimEnd(s)| - 1])
    ensures |TrimEnd(s)| <= |s| && TrimEnd(s) == s[..|TrimEnd(s)|]
    ensures (forall c :: c in s ==> IsSpace(c)) <==> TrimEnd(s) == []
  {
    if s != [] {
      assert s == s[..|s| - 1] + [s[|s| - 1]];
      if IsSpace(s[|s| - 1]) {
        TrimEndResult(s[..|s| - 1]);
      }
    }
  }

  /** Trimming leaves clean ends, changes only what needs it, and empties a
      string exactly when it is all whitespace. */
  lemma TrimResult(s: string)
    ensures Trimmed(Trim(s))
    ensures Trim(s) == s <==> Trimmed(s)
    ensures Trim(s) == [] <==> forall c :: c in s ==> IsSpace(c)
    ensures forall c :: c in Trim(s) ==> c in s
  {
    TrimStartResult(s);
    var t := TrimStart(s);
    TrimEndResult(t);
    if Trim(s) != [] {
      assert Trim(s)[0] == t[0];
    }
    if t != [] {
      assert t[0] in t && !IsSpace(t[0]);
    }
    if s != [] && t == s && TrimEnd(t) == t {
      assert Trimmed(s);
    }
    assert forall c :: c in t ==> c in s;
  }

  /** Trimming one end of an already clean other end. */
  lemma TrimPadding(pad: char, s: string)
    requires IsSpace(pad) && Trimmed(s)
    ensures Trim([pad] + s) == s
  {
    assert ([pad] + s)[1..] == s;
    TrimResult(s);
    TrimStartResult(s);
    if s != [] {
      assert TrimStart(s) == s;
    }
  }

  // ---------------------------------------------------------------- splitting

  /** The index of the first `c`, or the length. */
  function Find(s: string, c: char): (i: nat)
    ensures i <= |s|
    ensures forall k :: 0 <= k < i ==> s[k] != c
    ensures i < |s| ==> s[i] == c
  {
    if s == [] then 0
    else if s[0] == c then 0
    else 1 + Find(s[1..], c)
  }

  /** The pieces between separators, at least one. */
  function Split(s: string, c: char): (parts: seq<string>)
    ensures |parts| >= 1
    decreases |s|
  {
    var i := Find(s, c);
    if i == |s| then [s] else [s[..i]] + Split(s[i + 1..], c)
  }

  function Join(parts: seq<string>, sep: string): string {
    if parts == [] then ""
    else if |parts| == 1 then parts[0]
    else parts[0] + sep + Join(parts[1..], sep)
  }

  lemma FindInPrefix(a: string, c: char, b: string)
    requires c !in a
    ensures Find(a + [c] + b, c) == |a|
  {
    var s := a + [c] + b;
    assert s[|a|] == c;
    forall k | 0 <= k < |a|
      ensures s[k] != c
    {
      assert a[k] in a;
    }
  }

  lemma FindAbsent(a: string, c: char)
    requires c !in a
    ensures Find(a, c) == |a|
  {
    forall k | 0 <= k < |a|
      ensures a[k] != c
    {
      assert a[k] in a;
    }
  }

  lemma SplitStep(a: string, c: char, b: string)
    requires c !in a
    ensures Split(a + [c] + b, c) == [a] + Split(b, c)
  {
    FindInPrefix(a, c, b);
    var s := a + [c] + b;
    assert s[..|a|] == a && s[|a| + 1..] == b;
  }

  /** Splitting distributes over a separator. */
  lemma {:induction false} SplitAppend(a: string, c: char, b: string)
    ensures Split(a + [c] + b, c) == Split(a, c) + Split(b, c)
    decreases |a|
  {
    var i := Find(a, c);
    if i == |a| {
      assert c !in a;
      SplitStep(a, c, b);
    } else {
      var head, rest := a[..i], a[i + 1..];
      assert c !in head;
      assert a + [c] + b == head + [c] + (rest + [c] + b);
      SplitStep(head, c, rest + [c] + b);
      SplitAppend(rest, c, b);
    }
  }

  /** Splitting loses nothing: joining the pieces gives the string back. */
  lemma {:induction false} JoinSplit(s: string, c: char)
    ensures Join(Split(s, c), [c]) == s
    decreases |s|
  {
    var i := Find(s, c);
    if i < |s| {
      JoinSplit(s[i + 1..], c);
      var rest := Split(s[i + 1..], c);
      assert ([s[..i]] + rest)[1..] == rest;
      assert s == s[..i] + [c] + s[i + 1..];
    }
  }
}
