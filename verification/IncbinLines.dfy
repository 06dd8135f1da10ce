/** incbin's line reader: characters are read one by one into a buffer that grows as needed.

    Allocation and reading do not fail in this model.
 */
module IncbinLines {

  import opened Wrappers

  /** The first line of a text: up to and including the first newline, or all of it. */
  function FirstLine(s: seq<char>): (r: seq<char>)
    ensures r <= s && (s != [] ==> r != [])
  {
    if s == [] then []
    else if s[0] == '\n' then [s[0]]
    else [s[0]] + FirstLine(s[1..])
  }

  function Lines(s: seq<char>): seq<seq<char>>
    decreases |s|
  {
    if s == [] then [] else [FirstLine(s)] + Lines(s[|FirstLine(s)|..])
  }

  function Concat(ls: seq<seq<char>>): seq<char>
    decreases |ls|
  {
    if ls == [] then [] else ls[0] + Concat(ls[1..])
  }

  /** A line: not empty, with a newline nowhere but at its end. */
  predicate IsLine(l: seq<char>) {
    l != [] && '\n' !in l[..|l| - 1]
  }

  predicate Ended(l: seq<char>) {
    l != [] && l[|l| - 1] == '\n'
  }

  /** `ls` divides `s` into lines, each ended by a newline except possibly the last. */
  ghost predicate Divides(ls: seq<seq<char>>, s: seq<char>) {
    && Concat(ls) == s
    && (forall i :: 0 <= i < |ls| ==> IsLine(ls[i]))
    && (forall i :: 0 <= i < |ls| - 1 ==> Ended(ls[i]))
  }

  lemma {:induction false} FirstLineIsLine(s: seq<char>)
    requires s != []
    ensures IsLine(FirstLine(s)) && (Ended(FirstLine(s)) || FirstLine(s) == s)
    decreases |s|
  {
    if s[0] != '\n' && |s| > 1 {
      var rest := FirstLine(s[1..]);
      FirstLineIsLine(s[1..]);
      assert FirstLine(s)[..|rest|] == [s[0]] + rest[..|rest| - 1];
    }
  }

  /** A line that is ended, or is everything, is the first line. */
  lemma {:induction false} FirstLineIs(l: seq<char>, s: seq<char>)
    requires IsLine(l) && l <= s && (Ended(l) || l == s)
    ensures FirstLine(s) == l
    decreases |l|
  {
    if |l| == 1 {
      if l[0] != '\n' { assert s[1..] == []; }
    } else {
      assert l[0] in l[..|l| - 1];
      assert forall i :: 0 <= i < |l| - 2 ==> l[1..][i] in l[..|l| - 1];
      FirstLineIs(l[1..], s[1..]);
    }
  }

  /** What has been read is the first line when it is everything or ends at the first newline. */
  lemma FirstLineRead(text: seq<char>, pos: nat)
    requires 0 < pos <= |text| && '\n' !in text[..pos - 1] && (text[pos - 1] == '\n' || pos == |text|)
    ensures FirstLine(text) == text[..pos]
  {
    assert text[..pos][..pos - 1] == text[..pos - 1];
    FirstLineIs(text[..pos], text);
  }

  lemma {:induction false} LinesDoDivide(s: seq<char>)
    ensures Divides(Lines(s), s)
    decreases |s|
  {
    if s != [] {
      var l := FirstLine(s);
      var rest := s[|l|..];
      FirstLineIsLine(s);
      LinesDoDivide(rest);
      assert Lines(s)[1..] == Lines(rest);
      assert s == l + rest;
      assert forall i :: 1 <= i < |Lines(s)| ==> Lines(s)[i] == Lines(rest)[i - 1];
    }
  }

  lemma DividesTail(ls: seq<seq<char>>, s: seq<char>)
    requires Divides(ls, s) && ls != []
    ensures IsLine(ls[0]) && ls[0] <= s && Divides(ls[1..], s[|ls[0]|..])
    ensures Ended(ls[0]) || ls[0] == s
  {
    assert s == ls[0] + Concat(ls[1..]);
    assert s[|ls[0]|..] == Concat(ls[1..]);
    assert forall i :: 0 <= i < |ls[1..]| ==> ls[1..][i] == ls[i + 1];
    if |ls| == 1 {
      assert ls[1..] == [];
    }
  }

  lemma {:induction false} DivisionIsLines(ls: seq<seq<char>>, s: seq<char>)
    requires Divides(ls, s)
    ensures ls == Lines(s)
    decreases |ls|
  {
    if ls != [] {
      DividesTail(ls, s);
      FirstLineIs(ls[0], s);
      DivisionIsLines(ls[1..], s[|ls[0]|..]);
      assert ls == [ls[0]] + ls[1..];
    }
  }

  /** Main result on lines: `Lines` is the one way to divide a text into lines. */
  lemma LinesDivide(ls: seq<seq<char>>, s: seq<char>)
    ensures Divides(ls, s) <==> ls == Lines(s)
  {
    LinesDoDivide(s);
    if Divides(ls, s) {
      DivisionIsLines(ls, s);
    }
  }

  // ---------------------------------------------------------------------------
  // The reader
  // ---------------------------------------------------------------------------

  class File {
    const content: seq<char>
    var at: nat

    constructor (content: seq<char>)
      ensures this.content == content && at == 0
    {
      this.content := content;
      at := 0;
    }

    ghost predicate Valid()
      reads this
    {
      at <= |content|
    }

    ghost function Rest(): seq<char>
      requires Valid()
      reads this
    {
      content[at..]
    }

    method Fgetc() returns (c: Option<char>)
      requires Valid()
      modifies this
      ensures Valid()
      ensures c == if old(at) == |content| then None else Some(content[old(at)])
      ensures at == if c.None? then old(at) else old(at) + 1
    {
      if at == |content| {
        return None;
      }
      c := Some(content[at]);
      at := at + 1;
    }
  }

  /** The caller's `line` and `size`. */
  class LineBuffer {
    var line: array<char>
    var n: nat

    constructor ()
      ensures Valid() && fresh(line)
    {
      line := new char[0];
      n := 0;
    }

    ghost predicate Valid()
      reads this
    {
      line.Length == n
    }

    /** realloc to `m` characters, keeping the first `used`. */
    method Grow(m: nat, used: nat)
      requires Valid() && used <= n <= m
      modifies this
      ensures Valid() && n == m && fresh(line)
      ensures line[..used] == old(line[..used])
    {
      var bigger := new char[m];
      for i := 0 to used
        invariant line == old(line) && bigger[..i] == old(line[..i])
      {
        bigger[i] := line[i];
      }
      line, n := bigger, m;
    }

    /** fline.  A length stands for the returned count, -1 for the end of the file. */
    method Fline(fp: File) returns (len: int)
      requires Valid() && fp.Valid()
      modifies this, line, fp
      ensures Valid() && fp.Valid() && (line == old(line) || fresh(line))
      ensures len == if old(fp.Rest()) == [] then -1 else |FirstLine(old(fp.Rest()))|
      ensures len >= 0 ==> len < n && line[..len] == FirstLine(old(fp.Rest())) && line[len] == '\0'
      ensures fp.at == old(fp.at) + if len < 0 then 0 else len
    {
      if n == 0 {
        Grow(64, 0);
      }
      var pos := ReadLoop(fp);
      if pos == 0 {
        return -1;
      }
      line[pos] := '\0';
      return pos;
    }

    /** The reading loop: it ends after a newline or at the end of the file, with room for the terminator. */
    method ReadLoop(fp: File) returns (pos: nat)
      requires Valid() && n > 0 && fp.Valid()
      modifies this, line, fp
      ensures Valid() && fp.Valid() && (line == old(line) || fresh(line))
      ensures pos == 0 <==> old(fp.Rest()) == []
      ensures pos < n && line[..pos] == FirstLine(old(fp.Rest())) && fp.at == old(fp.at) + pos
    {
      ghost var text := fp.Rest();
      var chr: int := n;
      pos := 0;
      while true
        invariant Valid() && fp.Valid() && (line == old(line) || fresh(line))
        invariant chr == n - pos && 1 <= chr && 0 <= pos <= |text| && fp.at == old(fp.at) + pos
        invariant line[..pos] == text[..pos]
        invariant '\n' !in text[..pos]
        decreases |text| - pos
      {
        var c := fp.Fgetc();
        if chr < 2 {
          Grow(n + if n > 16 then n else 64, pos);
          chr := n - pos;
        }
        if c.None? {
          break;
        }
        line[pos] := c.value;
        pos := pos + 1;
        chr := chr - 1;
        assert text[..pos] == text[..pos - 1] + [c.value];
        if c.value == '\n' {
          break;
        }
      }
      if pos > 0 {
        FirstLineRead(text, pos);
      }
    }
  }

  /** The loop in `main` that reads all the lines of a file. */
  method ReadLines(fp: File) returns (lines: seq<seq<char>>)
    requires fp.Valid()
    modifies fp
    ensures lines == Lines(old(fp.Rest())) && fp.Valid() && fp.Rest() == []
  {
    lines := [];
    var buffer := new LineBuffer();
    ghost var text := fp.Rest();
    while true
      invariant fp.Valid() && buffer.Valid() && fresh(buffer) && fresh(buffer.line)
      invariant lines + Lines(fp.Rest()) == Lines(text)
      decreases |fp.Rest()|
    {
      ghost var rest := fp.Rest();
      var len := buffer.Fline(fp);
      assert fp.Rest() == if len < 0 then [] else rest[len..];
      if len == -1 {
        break;
      }
      assert lines + Lines(rest) == lines + [buffer.line[..len]] + Lines(fp.Rest());
      lines := lines + [buffer.line[..len]];
    }
  }
}
