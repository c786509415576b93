/** A text-mode pipe end being read: the characters the reader sees and a cursor.
    `readline()` and `read(n)` advance the cursor. A pipe opened with
    `Popen(..., text=True)` translates newlines, so its reader sees `Translated` of what
    the other process wrote; `sys.stdin` on Linux shows the written text as it is. */
module Streams {
  import opened Common

  class TextStream {
    /** The text as the reader sees it. */
    const data: string
    var pos: nat

    predicate Valid()
      reads this
    {
      pos <= |data|
    }

    constructor (text: string)
      ensures data == text && pos == 0
      ensures Valid()
    {
      data := text;
      pos := 0;
    }

    /** readline(): up to and including the next '\n', or the rest of the text; ""
        exactly at the end. */
    method ReadLine() returns (line: string)
      requires Valid()
      modifies this
      ensures Valid()
      ensures line == LineAt(data, old(pos)) && pos == LineEnd(data, old(pos))
      ensures line == [] <==> old(pos) == |data|
    {
      var e := pos;
      while e < |data| && data[e] != '\n'
        invariant pos <= e <= |data|
        invariant LineEnd(data, pos) == LineEnd(data, e)
        decreases |data| - e
      {
        e := e + 1;
      }
      if e < |data| {
        e := e + 1;
      }
      line := data[pos..e];
      pos := e;
    }

    /** read(n): a negative n reads to the end of the text; otherwise at most n
        characters, fewer when the text ends first. */
    method Read(n: int) returns (text: string)
      requires Valid()
      modifies this
      ensures Valid()
      ensures pos == ReadEnd(data, old(pos), n) && text == data[old(pos)..pos]
    {
      text := data[pos..ReadEnd(data, pos, n)];
      pos := ReadEnd(data, pos, n);
    }
  }

  /** A text-mode pipe end being written; `written` is everything written so far. */
  class OutStream {
    var written: string

    constructor ()
      ensures written == []
    {
      written := [];
    }

    method Write(text: string)
      modifies this
      ensures written == old(written) + text
    {
      written := written + text;
    }
  }

  /** Universal-newline translation of a text pipe's reading end: "\r\n" and a lone
      '\r' each arrive as '\n'. */
  function Translated(raw: string): string
    decreases |raw|
  {
    if |raw| == 0 then []
    else if raw[0] == '\r' && |raw| > 1 && raw[1] == '\n' then "\n" + Translated(raw[2..])
    else if raw[0] == '\r' then "\n" + Translated(raw[1..])
    else [raw[0]] + Translated(raw[1..])
  }

  /** The reader never sees a '\r'. */
  lemma {:induction false} TranslatedHasNoCr(raw: string)
    ensures '\r' !in Translated(raw)
    decreases |raw|
  {
    if |raw| == 0 {
    } else if raw[0] == '\r' && |raw| > 1 && raw[1] == '\n' {
      TranslatedHasNoCr(raw[2..]);
    } else {
      TranslatedHasNoCr(raw[1..]);
    }
  }

  /** Text without '\r' arrives unchanged. */
  lemma {:induction false} TranslatedPlain(raw: string)
    requires '\r' !in raw
    ensures Translated(raw) == raw
    decreases |raw|
  {
    if |raw| > 0 {
      assert raw[0] != '\r';
      TranslatedPlain(raw[1..]);
    }
  }

  /** Translation works piece by piece, provided the first piece does not end in a '\r'
      that the second piece's '\n' would join. */
  lemma {:induction false} TranslatedAppend(a: string, b: string)
    requires a == [] || a[|a| - 1] != '\r'
    ensures Translated(a + b) == Translated(a) + Translated(b)
    decreases |a|
  {
    if |a| == 0 {
      assert a + b == b;
    } else if a[0] == '\r' && a[1] == '\n' {
      assert a[2..] == [] || a[2..][|a[2..]| - 1] == a[|a| - 1];
      TranslatedAppend(a[2..], b);
      CrLfStep(a, b);
    } else {
      assert a[1..] == [] || a[1..][|a[1..]| - 1] == a[|a| - 1];
      TranslatedAppend(a[1..], b);
      if a[0] == '\r' {
        CrStep(a, b);
      } else {
        CharStep(a, b);
      }
    }
  }

  /** The steps of TranslatedAppend: a leading "\r\n", a lone '\r', any other character. */
  lemma CrLfStep(a: string, b: string)
    requires |a| > 1 && a[0] == '\r' && a[1] == '\n'
    requires Translated(a[2..] + b) == Translated(a[2..]) + Translated(b)
    ensures Translated(a + b) == Translated(a) + Translated(b)
  {
    UnfoldCrLf(a);
    UnfoldCrLf(a + b);
    DropAppend(a, b, 2);
    Regroup("\n", Translated(a[2..]), Translated(b));
  }

  lemma CrStep(a: string, b: string)
    requires |a| > 1 && a[0] == '\r' && a[1] != '\n'
    requires Translated(a[1..] + b) == Translated(a[1..]) + Translated(b)
    ensures Translated(a + b) == Translated(a) + Translated(b)
  {
    UnfoldCr(a);
    UnfoldCr(a + b);
    DropAppend(a, b, 1);
    Regroup("\n", Translated(a[1..]), Translated(b));
  }

  lemma CharStep(a: string, b: string)
    requires |a| > 0 && a[0] != '\r'
    requires Translated(a[1..] + b) == Translated(a[1..]) + Translated(b)
    ensures Translated(a + b) == Translated(a) + Translated(b)
  {
    UnfoldChar(a);
    UnfoldChar(a + b);
    DropAppend(a, b, 1);
    Regroup([a[0]], Translated(a[1..]), Translated(b));
  }

  lemma DropAppend(a: string, b: string, k: nat)
    requires k <= |a|
    ensures (a + b)[k..] == a[k..] + b
    ensures k < |a| ==> (a + b)[k] == a[k]
  {
  }

  /** The first step of the translation of a text that starts with "\r\n", with a '\r'
      before anything but '\n', or with any other character. */
  lemma UnfoldCrLf(s: string)
    requires |s| > 1 && s[0] == '\r' && s[1] == '\n'
    ensures Translated(s) == "\n" + Translated(s[2..])
  {
  }

  lemma UnfoldCr(s: string)
    requires |s| > 0 && s[0] == '\r' && (|s| == 1 || s[1] != '\n')
    ensures Translated(s) == "\n" + Translated(s[1..])
  {
  }

  lemma UnfoldChar(s: string)
    requires |s| > 0 && s[0] != '\r'
    ensures Translated(s) == [s[0]] + Translated(s[1..])
  {
  }

  /** One step of the translation each: "\r\n", a '\r' before anything but '\n', and any
      other character. */
  lemma TranslatedCrLf(rest: string)
    ensures Translated("\r\n" + rest) == "\n" + Translated(rest)
  {
    var t := "\r\n" + rest;
    assert t[0] == '\r' && t[1] == '\n' && t[2..] == rest;
  }

  lemma TranslatedCr(rest: string)
    requires rest == [] || rest[0] != '\n'
    ensures Translated("\r" + rest) == "\n" + Translated(rest)
  {
    var t := "\r" + rest;
    assert t[0] == '\r' && t[1..] == rest;
  }

  lemma TranslatedChar(c: char, rest: string)
    requires c != '\r'
    ensures Translated([c] + rest) == [c] + Translated(rest)
  {
    var t := [c] + rest;
    assert t[0] == c && t[1..] == rest;
  }

  /** A lone '\r' ends a line just as '\n' does. */
  lemma LoneCarriageReturn()
    ensures Translated("a\rb") == "a\nb"
  {
    var s := "a\rb";
    assert s[1..] == "\rb" && s[1..][1..] == "b" && "b"[1..] == [];
  }

  /** Where read(n) leaves a cursor at i. */
  function ReadEnd(s: string, i: nat, n: int): (e: nat)
    requires i <= |s|
    ensures i <= e <= |s|
    ensures n < 0 ==> e == |s|
    ensures n >= 0 ==> e - i == (if i + n <= |s| then n else |s| - i)
  {
    if n < 0 || i + n > |s| then |s| else i + n
  }
}
