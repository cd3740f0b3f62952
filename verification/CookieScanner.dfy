/** Reading one cookie from a `Cookie` header (src/router/mod.rs). */
module CookieScanner {
  import opened Prelude
  import opened Strings

  /** What one `;`-separated part contributes for a name. */
  function ValueIn(part: string, name: string): Option<string> {
    var p := Trim(part);
    var i := Find(p, '=');
    if i < |p| && Trim(p[..i]) == name && p[i + 1..] != "" then Some(Trim(p[i + 1..])) else None
  }

  function FirstValue(parts: seq<string>, name: string): Option<string> {
    if parts == [] then None
    else if ValueIn(parts[0], name).Some? then ValueIn(parts[0], name)
    else FirstValue(parts[1..], name)
  }

  /** What a header holds under a name. */
  function Scan(header: string, name: string): Option<string> {
    FirstValue(Split(header, ';'), name)
  }

  method CookieValue(header: Option<string>, name: string) returns (r: Option<string>)
    ensures header.None? ==> r == None
    ensures header.Some? ==> r == Scan(header.value, name)
    ensures r.Some? ==> r.value != "" && Trimmed(r.value)
  {
    if header.None? {
      return None;
    }
    var parts := Split(header.value, ';');
    var i := 0;
    while i < |parts|
      invariant 0 <= i <= |parts|
      invariant FirstValue(parts, name) == FirstValue(parts[i..], name)
    {
      var part := Trim(parts[i]);
      var eq := Find(part, '=');
      assert parts[i..][0] == parts[i] && parts[i..][1..] == parts[i + 1..];
      if eq < |part| {
        var k, v := part[..eq], part[eq + 1..];
        if Trim(k) == name && v != "" {
          ValueIsClean(parts[i], name);
          return Some(Trim(v));
        }
      }
      i := i + 1;
    }
    return None;
  }

  /** On any input a value that is returned is neither empty nor padded. */
  lemma ValueIsClean(part: string, name: string)
    ensures ValueIn(part, name).Some? ==> ValueIn(part, name).value != "" && Trimmed(ValueIn(part, name).value)
  {
    var p := Trim(part);
    var i := Find(p, '=');
    TrimResult(part);
    if ValueIn(part, name).Some? {
      var v := p[i + 1..];
      TrimResult(v);
      assert v[|v| - 1] == p[|p| - 1];
      assert v[|v| - 1] in v;
    }
  }

  // -------------------------------------------------------- reading back pairs

  datatype Pair = Pair(name: string, value: string)

  /** What a browser sends: no separators in either, no padding. */
  predicate Clean(p: Pair) {
    && p.name != "" && Trimmed(p.name) && '=' !in p.name && ';' !in p.name
    && Trimmed(p.value) && ';' !in p.value
  }

  function Render(p: Pair): string {
    p.name + "=" + p.value
  }

  /** `name=value; name2=value2` */
  function RenderAll(pairs: seq<Pair>): string {
    if pairs == [] then ""
    else if |pairs| == 1 then Render(pairs[0])
    else Render(pairs[0]) + "; " + RenderAll(pairs[1..])
  }

  function FirstNonEmpty(pairs: seq<Pair>, name: string): Option<string> {
    if pairs == [] then None
    else if pairs[0].name == name && pairs[0].value != "" then Some(pairs[0].value)
    else FirstNonEmpty(pairs[1..], name)
  }

  lemma RenderedIsTrimmed(p: Pair)
    requires Clean(p)
    ensures Trimmed(Render(p)) && ';' !in Render(p)
  {
    var s := Render(p);
    assert s[0] == p.name[0];
    assert s[|s| - 1] == if p.value == "" then '=' else p.value[|p.value| - 1];
  }

  lemma PartOf(part: string, p: Pair, name: string)
    requires Clean(p) && Trim(part) == Render(p)
    ensures ValueIn(part, name) == if p.name == name && p.value != "" then Some(p.value) else None
  {
    var s := Render(p);
    assert s == p.name + ['='] + p.value;
    FindInPrefix(p.name, '=', p.value);
    assert s[..|p.name|] == p.name && s[|p.name| + 1..] == p.value;
    TrimResult(p.name);
    TrimResult(p.value);
  }

  lemma EmptyHeader(name: string)
    ensures FirstValue(Split("", ';'), name) == None
  {
    assert Split("", ';') == [""];
    assert Trim("") == "";
    assert ValueIn("", name) == None;
  }

  lemma ScanLast(part: string, name: string)
    requires ';' !in part
    ensures FirstValue(Split(part, ';'), name) == ValueIn(part, name)
  {
    FindAbsent(part, ';');
    assert FirstValue([part][1..], name) == None;
  }

  lemma ScanOne(part: string, rest: string, name: string)
    requires ';' !in part
    ensures FirstValue(Split(part + [';'] + rest, ';'), name)
            == if ValueIn(part, name).Some? then ValueIn(part, name) else FirstValue(Split(rest, ';'), name)
  {
    SplitStep(part, ';', rest);
    assert ([part] + Split(rest, ';'))[1..] == Split(rest, ';');
  }

  lemma PaddedPart(p: Pair, name: string, pad: string)
    requires Clean(p) && (pad == "" || pad == " ")
    ensures ';' !in pad + Render(p)
    ensures ValueIn(pad + Render(p), name) == if p.name == name && p.value != "" then Some(p.value) else None
  {
    RenderedIsTrimmed(p);
    if pad == "" {
      TrimResult(Render(p));
      assert pad + Render(p) == Render(p);
    } else {
      TrimPadding(' ', Render(p));
      assert pad + Render(p) == [' '] + Render(p);
    }
    PartOf(pad + Render(p), p, name);
  }

  lemma Regroup(pad: string, first: string, rest: string)
    ensures pad + (first + "; " + rest) == (pad + first) + [';'] + (" " + rest)
  {
    assert "; " == [';'] + " ";
    assert pad + (first + ([';'] + " ") + rest) == (pad + first) + [';'] + (" " + rest);
  }

  lemma RenderedTail(pairs: seq<Pair>, pad: string)
    requires |pairs| > 1
    ensures pad + RenderAll(pairs) == (pad + Render(pairs[0])) + [';'] + (" " + RenderAll(pairs[1..]))
  {
    Regroup(pad, Render(pairs[0]), RenderAll(pairs[1..]));
  }

  lemma {:induction false} PaddedScan(pairs: seq<Pair>, name: string, pad: string)
    requires pairs != [] && (pad == "" || pad == " ")
    requires forall i :: 0 <= i < |pairs| ==> Clean(pairs[i])
    ensures FirstValue(Split(pad + RenderAll(pairs), ';'), name) == FirstNonEmpty(pairs, name)
  {
    var first := pad + Render(pairs[0]);
    PaddedPart(pairs[0], name, pad);
    if |pairs| == 1 {
      assert FirstNonEmpty(pairs[1..], name) == None;
      ScanLast(first, name);
    } else {
      RenderedTail(pairs, pad);
      ScanOne(first, " " + RenderAll(pairs[1..]), name);
      PaddedScan(pairs[1..], name, " ");
    }
  }

  /** Scanning a rendered list of clean pairs for a name finds its first
      non-empty value, or nothing. */
  lemma ScanFindsFirstNonEmpty(pairs: seq<Pair>, name: string)
    requires forall i :: 0 <= i < |pairs| ==> Clean(pairs[i])
    ensures Scan(RenderAll(pairs), name) == FirstNonEmpty(pairs, name)
  {
    if pairs == [] {
      EmptyHeader(name);
    } else {
      PaddedScan(pairs, name, "");
      assert "" + RenderAll(pairs) == RenderAll(pairs);
    }
  }
}
