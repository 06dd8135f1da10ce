/** incbin's directive scan: pointers into a line find INCBIN(name, "file") and cut the name and the file
    out of it by writing terminators into the line. */
module IncbinDirective {

  import opened Wrappers

  predicate IsSpace(c: char) {
    c == ' ' || c == '\t' || c == '\n' || c == '\r' || c == '\U{0b}' || c == '\U{0c}'
  }

  /** isspace: the space, and the control characters from the tab to the carriage return. */
  lemma IsSpaceIff(c: char)
    ensures IsSpace(c) <==> c as int == 32 || 9 <= c as int <= 13
  {
  }

  predicate AllSpace(s: string) {
    SpaceIn(s, 0, |s|)
  }

  /** White space from position `lo` up to `hi`. */
  predicate SpaceIn(s: seq<char>, lo: nat, hi: nat)
    requires hi <= |s|
  {
    forall k :: lo <= k < hi ==> IsSpace(s[k])
  }

  // ---------------------------------------------------------------------------
  // What the scan finds
  // ---------------------------------------------------------------------------

  /** strchr: the first `c` at or after `from`. */
  function IndexOf(s: string, c: char, from: nat): (r: Option<nat>)
    requires from <= |s|
    ensures r.Some? ==> from <= r.value < |s| && s[r.value] == c && forall k :: from <= k < r.value ==> s[k] != c
    ensures r.None? ==> forall k :: from <= k < |s| ==> s[k] != c
    decreases |s| - from
  {
    if from == |s| then None else if s[from] == c then Some(from) else IndexOf(s, c, from + 1)
  }

  const DIRECTIVE := "INCBIN"

  predicate DirectiveAt(s: string, k: nat) {
    k + |DIRECTIVE| <= |s| && s[k..k + |DIRECTIVE|] == DIRECTIVE
  }

  /** strstr: the first INCBIN at or after `from`. */
  function FindDirective(s: string, from: nat): (r: Option<nat>)
    requires from <= |s|
    ensures r.Some? ==> from <= r.value && DirectiveAt(s, r.value)
    ensures r.Some? ==> forall k :: from <= k < r.value ==> !DirectiveAt(s, k)
    ensures r.None? ==> forall k :: from <= k <= |s| ==> !DirectiveAt(s, k)
    decreases |s| - from
  {
    if DirectiveAt(s, from) then Some(from)
    else if from == |s| then None
    else FindDirective(s, from + 1)
  }

  /** The positions of the parenthesis, the comma and the closing parenthesis. */
  datatype Marks = Marks(beg: nat, sep: nat, end: nat)

  predicate MarkedAt(s: string, m: Marks) {
    m.beg < m.sep < m.end < |s| && s[m.beg] == '(' && s[m.sep] == ',' && s[m.end] == ')'
  }

  function FindMarks(s: string): (r: Option<Marks>)
    ensures r.Some? ==> MarkedAt(s, r.value)
  {
    match FindDirective(s, 0)
    case None => None
    case Some(inc) =>
      match IndexOf(s, '(', inc)
      case None => None
      case Some(beg) =>
        match IndexOf(s, ',', beg)
        case None => None
        case Some(sep) =>
          match IndexOf(s, ')', sep)
          case None => None
          case Some(end) => Some(Marks(beg, sep, end))
  }

  /** The marks are somewhere on the line, in order. */
  ghost predicate InOrder(s: string, inc: nat, m: Marks) {
    DirectiveAt(s, inc) && inc <= m.beg && MarkedAt(s, m)
  }

  /** The scan finds marks exactly when there are marks in order; and it finds the first of each. */
  lemma FoundIff(s: string)
    ensures FindMarks(s).Some? <==> exists inc, m :: InOrder(s, inc, m)
    ensures forall inc, m :: InOrder(s, inc, m) ==>
      FindMarks(s).value.beg <= m.beg && FindMarks(s).value.sep <= m.sep && FindMarks(s).value.end <= m.end
  {
    forall inc, m | InOrder(s, inc, m)
      ensures FindMarks(s).Some?
      ensures FindMarks(s).value.beg <= m.beg && FindMarks(s).value.sep <= m.sep && FindMarks(s).value.end <= m.end
    {
      FoundBefore(s, inc, m);
    }
    if FindMarks(s).Some? {
      assert InOrder(s, FindDirective(s, 0).value, FindMarks(s).value);
    }
  }

  lemma FoundBefore(s: string, inc: nat, m: Marks)
    requires InOrder(s, inc, m)
    ensures FindMarks(s).Some?
    ensures FindMarks(s).value.beg <= m.beg && FindMarks(s).value.sep <= m.sep && FindMarks(s).value.end <= m.end
  {
    assert FindDirective(s, 0).Some? && FindDirective(s, 0).value <= inc;
    var beg := IndexOf(s, '(', FindDirective(s, 0).value);
    assert beg.Some? && beg.value <= m.beg;
    var sep := IndexOf(s, ',', beg.value);
    assert sep.Some? && sep.value <= m.sep;
    var end := IndexOf(s, ')', sep.value);
    assert end.Some? && end.value <= m.end;
  }

  function TrimLeft(s: string): string {
    if s != [] && IsSpace(s[0]) then TrimLeft(s[1..]) else s
  }

  function TrimRight(s: string): string {
    if s != [] && IsSpace(s[|s| - 1]) then TrimRight(s[..|s| - 1]) else s
  }

  /** Without the white space at both ends. */
  function Trim(s: string): string {
    TrimRight(TrimLeft(s))
  }

  lemma {:induction false} TrimLeftIs(s: string, k: nat)
    requires k < |s| && SpaceIn(s, 0, k) && !IsSpace(s[k])
    ensures TrimLeft(s) == s[k..]
    decreases k
  {
    if k > 0 {
      TrimLeftIs(s[1..], k - 1);
    }
  }

  lemma {:induction false} TrimRightIs(s: string, k: nat)
    requires 0 < k <= |s| && SpaceIn(s, k, |s|) && !IsSpace(s[k - 1])
    ensures TrimRight(s) == s[..k]
    decreases |s| - k
  {
    if k == |s| {
      assert s[..k] == s;
    } else {
      TrimRightIs(s[..|s| - 1], k);
      assert s[..|s| - 1][..k] == s[..k];
    }
  }

  lemma {:induction false} TrimBlank(s: string)
    requires AllSpace(s)
    ensures Trim(s) == ""
    decreases |s|
  {
    if s != [] {
      TrimBlank(s[1..]);
    }
  }

  lemma {:induction false} TrimRightBlank(s: string)
    requires AllSpace(s)
    ensures TrimRight(s) == ""
    decreases |s|
  {
    if s != [] {
      TrimRightBlank(s[..|s| - 1]);
    }
  }

  /** A part with something other than white space, from the first such character `a` to the last, before `b`. */
  lemma TrimIs(s: string, lo: nat, a: nat, b: nat, hi: nat)
    requires lo <= a < b <= hi <= |s|
    requires SpaceIn(s, lo, a) && SpaceIn(s, b, hi) && !IsSpace(s[a]) && !IsSpace(s[b - 1])
    ensures Trim(s[lo..hi]) == s[a..b]
  {
    var t, u := s[lo..hi], s[a..hi];
    TrimLeftIs(t, a - lo);
    assert t[a - lo..] == u;
    TrimRightIs(u, b - a);
    assert u[..b - a] == s[a..b];
  }

  // ---------------------------------------------------------------------------
  // The scan
  // ---------------------------------------------------------------------------

  /** The C string at position `p`: up to the next terminator. */
  function CStr(v: seq<char>, p: nat): string
    decreases |v| - p
  {
    if p >= |v| || v[p] == '\0' then "" else [v[p]] + CStr(v, p + 1)
  }

  lemma {:induction false} CStrIs(v: seq<char>, p: nat, t: nat)
    requires p <= t < |v| && v[t] == '\0' && forall k :: p <= k < t ==> v[k] != '\0'
    ensures CStr(v, p) == v[p..t]
    decreases t - p
  {
    if p < t {
      CStrIs(v, p + 1, t);
      assert v[p..t] == [v[p]] + v[p + 1..t];
    }
  }

  /** What the generated comment shows, and the file that is opened. */
  datatype Directive = Directive(name: string, file: string, path: string)

  /** Without the first and the last character: the quotes, when there are quotes. */
  function Inside(f: string): string {
    if |f| < 2 then "" else f[1..|f| - 1]
  }

  /** A part that the scan delimits properly: it is empty or has something other than white space. */
  predicate Delimited(s: string) {
    s == "" || !AllSpace(s)
  }

  function NamePart(s: string, m: Marks): string
    requires m.beg < m.sep <= |s|
  {
    s[m.beg + 1..m.sep]
  }

  function FilePart(s: string, m: Marks): string
    requires m.sep < m.end <= |s|
  {
    s[m.sep + 1..m.end]
  }

  /** Skip white space from the left end of a part towards its delimiter. */
  method SkipForward(line: array<char>, from: nat, stop: nat) returns (p: nat)
    requires from <= stop < line.Length && !IsSpace(line[stop])
    ensures from <= p <= stop && SpaceIn(line[..], from, p) && !IsSpace(line[p])
  {
    p := from;
    while IsSpace(line[p])
      invariant from <= p <= stop && SpaceIn(line[..], from, p)
      decreases stop - p
    {
      p := p + 1;
    }
  }

  /** Skip white space leftwards from the delimiter `from`, and terminate the string after what is left. */
  method CutBack(line: array<char>, from: nat, stop: nat) returns (t: nat)
    requires stop < from < line.Length && !IsSpace(line[stop])
    modifies line
    ensures stop < t <= from && SpaceIn(old(line[..]), t, from) && !IsSpace(old(line[t - 1]))
    ensures line[..] == old(line[..])[t := '\0']
  {
    t := from - 1;
    while IsSpace(line[t])
      invariant stop <= t < from && SpaceIn(line[..], t + 1, from)
      decreases t
    {
      t := t - 1;
    }
    t := t + 1;
    line[t] := '\0';
  }

  /** Where a part begins and ends once the white space has been skipped from both sides: at opposite ends
      when there is nothing else in it. */
  ghost predicate Ends(s: string, lo: nat, hi: nat, a: nat, b: nat) {
    && lo <= hi <= |s|
    && (if SpaceIn(s, lo, hi) then a == hi && b == lo && Trim(s[lo..hi]) == "" && TrimRight(s[lo..hi]) == ""
        else lo <= a < b <= hi && Trim(s[lo..hi]) == s[a..b] && TrimRight(s[lo..hi]) == s[lo..b])
  }

  lemma EndsFound(s: string, lo: nat, hi: nat, a: nat, b: nat)
    requires lo <= a <= hi <= |s| && lo <= b <= hi && SpaceIn(s, lo, a) && SpaceIn(s, b, hi)
    requires a < hi ==> !IsSpace(s[a])
    requires lo < b ==> !IsSpace(s[b - 1])
    ensures Ends(s, lo, hi, a, b)
  {
    var part := s[lo..hi];
    if SpaceIn(s, lo, hi) {
      TrimBlank(part);
      TrimRightBlank(part);
    } else {
      TrimIs(s, lo, a, b, hi);
      TrimRightIs(part, b - lo);
      assert part[..b - lo] == s[lo..b];
    }
  }

  lemma PartIsBlank(s: string, lo: nat, hi: nat)
    requires lo <= hi <= |s|
    ensures AllSpace(s[lo..hi]) <==> SpaceIn(s, lo, hi)
  {
    if AllSpace(s[lo..hi]) {
      assert forall k :: lo <= k < hi ==> s[lo..hi][k - lo] == s[k];
    }
  }

  /** The line `v` of the text `s` after terminators have been written at `t` and `u`. */
  ghost predicate CutAt(s: string, v: seq<char>, t: nat, u: nat) {
    && t < u <= |s| < |v| && v[t] == '\0' && v[u] == '\0' && v[|s|] == '\0'
    && (forall k :: 0 <= k < |s| ==> s[k] != '\0')
    && (forall k :: 0 <= k < |s| && k != t && k != u ==> v[k] == s[k])
  }

  /** Between the terminators the line still reads as the text. */
  lemma Uncut(s: string, v: seq<char>, t: nat, u: nat, from: nat, to: nat)
    requires CutAt(s, v, t, u) && from <= to <= |s| && v[to] == '\0'
    requires (t < from || to <= t) && (u < from || to <= u)
    ensures CStr(v, from) == s[from..to]
  {
    assert forall k :: from <= k < to ==> v[k] == s[k];
    CStrIs(v, from, to);
    assert v[from..to] == s[from..to];
  }

  /** The string at the beginning of a part that ends at a delimiter and is cut at `b`: the part without the
      white space around it, if the part is properly delimited. */
  lemma PartShown(s: string, v: seq<char>, lo: nat, hi: nat, a: nat, b: nat, t: nat, u: nat)
    requires Ends(s, lo, hi, a, b) && CutAt(s, v, t, u) && hi < |s| && Delimited(s[lo..hi])
    requires (b == t && hi < u) || (b == u && t < lo)
    ensures CStr(v, a) == Trim(s[lo..hi])
  {
    PartIsBlank(s, lo, hi);
    if !SpaceIn(s, lo, hi) {
      Uncut(s, v, t, u, a, b);
    }
  }

  /** A name that is nothing but white space: the string begins at the comma instead and ends with the file. */
  lemma BlankNameShown(s: string, v: seq<char>, m: Marks, t: nat, file: nat, u: nat)
    requires MarkedAt(s, m) && CutAt(s, v, t, u) && t <= m.beg + 1 < m.sep < u
    requires Ends(s, m.sep + 1, m.end, file, u)
    ensures CStr(v, m.sep) == "," + TrimRight(FilePart(s, m))
  {
    Uncut(s, v, t, u, m.sep, u);
    assert s[m.sep..u] == "," + s[m.sep + 1..u];
  }

  /** A file that is nothing but white space: the string begins at the closing parenthesis and goes on to the
      end of the line. */
  lemma BlankFileShown(s: string, v: seq<char>, m: Marks, t: nat, u: nat)
    requires MarkedAt(s, m) && CutAt(s, v, t, u) && u < m.end
    ensures CStr(v, m.end) == s[m.end..]
  {
    Uncut(s, v, t, u, m.end, |s|);
    assert s[m.end..|s|] == s[m.end..];
  }

  lemma SliceOfSlice(s: seq<char>, a: nat, u: nat)
    requires a + 1 < u <= |s|
    ensures s[a..u][1..u - a - 1] == s[a + 1..u - 1]
  {
    var f := s[a..u];
    assert |f[1..u - a - 1]| == |s[a + 1..u - 1]|;
    assert forall j :: 0 <= j < |f| ==> f[j] == s[a + j];
  }

  lemma PathOpened(s: string, v: seq<char>, a: nat, u: nat)
    requires a < u <= |s| < |v| && v[u] == '\0' && v[u - 1] == '\0'
    requires forall k :: a <= k < u - 1 ==> v[k] == s[k] && s[k] != '\0'
    ensures CStr(v, a + 1) == Inside(s[a..u])
  {
    if a + 1 < u {
      SliceOfSlice(s, a, u);
      CStrIs(v, a + 1, u - 1);
      assert s[a + 1..u - 1] == v[a + 1..u - 1];
    }
  }

  /** Positions found on the line `v`, which agrees with the text `s` from `lo` up to `hi`, are the ends of
      the part of `s`. */
  lemma EndsOnLine(s: string, v: seq<char>, w: seq<char>, lo: nat, hi: nat, a: nat, b: nat)
    requires lo <= a <= hi < |s| <= |v| && lo <= b <= hi && |w| == |v|
    requires forall k :: lo <= k <= hi ==> v[k] == s[k] == w[k]
    requires SpaceIn(v, lo, a) && !IsSpace(v[a]) && SpaceIn(w, b, hi) && (lo < b ==> !IsSpace(w[b - 1]))
    ensures Ends(s, lo, hi, a, b)
  {
    EndsFound(s, lo, hi, a, b);
  }

  /** What skipping and cutting back on a line come to: `v` is the line before the cuts, `w` after the first. */
  lemma PartsEnd(s: string, v: seq<char>, w: seq<char>, m: Marks, name: nat, nameEnd: nat, file: nat, fileEnd: nat)
    requires MarkedAt(s, m) && |s| < |v| && v[|s|] == '\0' && forall k :: 0 <= k < |s| ==> v[k] == s[k] != '\0'
    requires m.beg < name <= m.sep && SpaceIn(v, m.beg + 1, name) && !IsSpace(v[name])
    requires m.beg < nameEnd <= m.sep && SpaceIn(v, nameEnd, m.sep) && !IsSpace(v[nameEnd - 1])
    requires w == v[nameEnd := '\0']
    requires m.sep < file <= m.end && SpaceIn(v, m.sep + 1, file) && !IsSpace(v[file])
    requires m.sep < fileEnd <= m.end && SpaceIn(w, fileEnd, m.end) && !IsSpace(w[fileEnd - 1])
    ensures Ends(s, m.beg + 1, m.sep, name, nameEnd) && Ends(s, m.sep + 1, m.end, file, fileEnd)
    ensures CutAt(s, w[fileEnd := '\0'], nameEnd, fileEnd)
  {
    EndsOnLine(s, v, v, m.beg + 1, m.sep, name, nameEnd);
    EndsOnLine(s, v, w, m.sep + 1, m.end, file, fileEnd);
  }

  /** The pointer work of the scan, for marks that have been found: the ends of both parts, and the line cut
      after them. */
  method CutParts(line: array<char>, ghost s: string, m: Marks)
    returns (name: nat, nameEnd: nat, file: nat, fileEnd: nat)
    requires |s| < line.Length && line[|s|] == '\0' && MarkedAt(s, m)
    requires forall k :: 0 <= k < |s| ==> line[k] == s[k] != '\0'
    modifies line
    ensures Ends(s, m.beg + 1, m.sep, name, nameEnd) && Ends(s, m.sep + 1, m.end, file, fileEnd)
    ensures m.beg < nameEnd <= m.sep < fileEnd <= m.end && m.sep < file
    ensures CutAt(s, line[..], nameEnd, fileEnd)
  {
    ghost var v := line[..];
    name := SkipForward(line, m.beg + 1, m.sep);
    file := SkipForward(line, m.sep + 1, m.end);
    nameEnd := CutBack(line, m.sep, m.beg);
    ghost var w := line[..];
    fileEnd := CutBack(line, m.end, m.sep);
    PartsEnd(s, v, w, m, name, nameEnd, file, fileEnd);
  }

  /** What a directive between marks is taken for.  The name and the file are the text between the marks without
      the white space around it, and the file opened is the inside of the file.  A part that is nothing but
      white space is passed over to the delimiter behind it: then the name is the comma and the file, and the
      file is the rest of the line; and what is opened for a file without a name is what follows the
      closing parenthesis. */
  function DirectiveOf(s: string, m: Marks): Directive
    requires MarkedAt(s, m)
  {
    var name, file := NamePart(s, m), FilePart(s, m);
    Directive(if Delimited(name) then Trim(name) else "," + TrimRight(file),
              if Delimited(file) then Trim(file) else s[m.end..],
              if AllSpace(file) then s[m.end + 1..] else Inside(Trim(file)))
  }

  /** The name shown is the name written exactly when that is properly delimited. */
  lemma NameShownIff(s: string, m: Marks)
    requires MarkedAt(s, m)
    ensures DirectiveOf(s, m).name == Trim(NamePart(s, m)) <==> Delimited(NamePart(s, m))
  {
    if AllSpace(NamePart(s, m)) {
      TrimBlank(NamePart(s, m));
    }
  }

  lemma PathRead(s: string, v: seq<char>, m: Marks, a: nat, u: nat, t: nat)
    requires MarkedAt(s, m) && Ends(s, m.sep + 1, m.end, a, u) && CutAt(s, v, t, u) && t <= m.sep
    ensures CStr(v[u - 1 := '\0'], a + 1) == DirectiveOf(s, m).path
  {
    var v' := v[u - 1 := '\0'];
    PartIsBlank(s, m.sep + 1, m.end);
    if SpaceIn(s, m.sep + 1, m.end) {
      CStrIs(v', m.end + 1, |s|);
      assert v'[m.end + 1..|s|] == s[m.end + 1..];
    } else {
      PathOpened(s, v', a, u);
    }
  }

  lemma NameRead(s: string, v: seq<char>, m: Marks, name: nat, nameEnd: nat, file: nat, fileEnd: nat)
    requires MarkedAt(s, m) && m.beg < nameEnd <= m.sep < fileEnd <= m.end
    requires Ends(s, m.beg + 1, m.sep, name, nameEnd) && Ends(s, m.sep + 1, m.end, file, fileEnd)
    requires CutAt(s, v, nameEnd, fileEnd)
    ensures CStr(v, name) == DirectiveOf(s, m).name
  {
    PartIsBlank(s, m.beg + 1, m.sep);
    if Delimited(NamePart(s, m)) {
      PartShown(s, v, m.beg + 1, m.sep, name, nameEnd, nameEnd, fileEnd);
    } else {
      BlankNameShown(s, v, m, nameEnd, file, fileEnd);
    }
  }

  lemma FileRead(s: string, v: seq<char>, m: Marks, nameEnd: nat, file: nat, fileEnd: nat)
    requires MarkedAt(s, m) && nameEnd <= m.sep
    requires Ends(s, m.sep + 1, m.end, file, fileEnd) && CutAt(s, v, nameEnd, fileEnd)
    ensures CStr(v, file) == DirectiveOf(s, m).file
  {
    PartIsBlank(s, m.sep + 1, m.end);
    if Delimited(FilePart(s, m)) {
      PartShown(s, v, m.sep + 1, m.end, file, fileEnd, nameEnd, fileEnd);
    } else {
      BlankFileShown(s, v, m, nameEnd, fileEnd);
    }
  }

  /** The strings read off the line once it has been cut. */
  method ReadParts(line: array<char>, ghost s: string, ghost m: Marks,
                   name: nat, ghost nameEnd: nat, file: nat, fileEnd: nat)
    returns (d: Directive)
    requires MarkedAt(s, m) && m.beg < nameEnd <= m.sep < fileEnd <= m.end && m.sep < file
    requires Ends(s, m.beg + 1, m.sep, name, nameEnd) && Ends(s, m.sep + 1, m.end, file, fileEnd)
    requires CutAt(s, line[..], nameEnd, fileEnd)
    modifies line
    ensures d == DirectiveOf(s, m)
  {
    ghost var v := line[..];
    NameRead(s, v, m, name, nameEnd, file, fileEnd);
    FileRead(s, v, m, nameEnd, file, fileEnd);
    PathRead(s, v, m, file, fileEnd, nameEnd);
    var shownName, shownFile := CStr(line[..], name), CStr(line[..], file);
    line[fileEnd - 1] := '\0';
    assert line[..] == v[fileEnd - 1 := '\0'];
    d := Directive(shownName, shownFile, CStr(line[..], file + 1));
  }

  /** The directive on a line, if there is one: the marks must be there in order. */
  function DirectiveOn(s: string): Option<Directive> {
    match FindMarks(s)
    case None => None
    case Some(m) => Some(DirectiveOf(s, m))
  }

  /** The scan of a line of length `n`. */
  method Scan(line: array<char>, n: nat) returns (r: Option<Directive>)
    requires n < line.Length && line[n] == '\0' && '\0' !in line[..n]
    modifies line
    ensures r == DirectiveOn(old(line[..n]))
  {
    ghost var s := line[..n];
    var found := FindMarks(line[..n]);
    if found == None {
      return None;
    }
    var m := found.value;
    assert forall k :: 0 <= k < n ==> s[k] in s;
    var name, nameEnd, file, fileEnd := CutParts(line, s, m);
    var d := ReadParts(line, s, m, name, nameEnd, file, fileEnd);
    return Some(d);
  }

  // ---------------------------------------------------------------------------
  // Directives as they are written
  // ---------------------------------------------------------------------------

  /** INCBIN ( part , part ) with `gap` before the parenthesis and text around it. */
  function Written(pre: string, gap: string, first: string, second: string, post: string): string {
    pre + (DIRECTIVE + gap) + "(" + first + "," + second + ")" + post
  }

  /** White space around a text that neither begins nor ends with it: trimming gives the text back. */
  lemma PaddedTrims(w: string, x: string, w': string)
    requires AllSpace(w) && AllSpace(w') && x != "" && !IsSpace(x[0]) && !IsSpace(x[|x| - 1])
    ensures Trim(w + x + w') == x && !AllSpace(w + x + w')
  {
    var s := w + x + w';
    var a, b := |w|, |w| + |x|;
    assert s[a] == x[0] && s[b - 1] == x[|x| - 1];
    assert SpaceIn(s, 0, a) && SpaceIn(s, b, |s|);
    TrimIs(s, 0, a, b, |s|);
    assert s[0..|s|] == s && s[a..b] == x;
  }

  /** A text between two others begins and ends where their lengths say. */
  lemma Between(x: string, c: char, y: string, z: string)
    ensures (x + [c] + y + z)[|x|] == c && (x + [c] + y + z)[|x| + 1..|x| + 1 + |y|] == y
  {
  }

  lemma NextMark(s: string, c: char, from: nat, t: string)
    requires from + |t| < |s| && s[from..from + |t|] == t && c !in t && s[from + |t|] == c
    ensures IndexOf(s, c, from) == Some(from + |t|)
  {
    assert forall k :: from <= k < from + |t| ==> s[k] == t[k - from];
  }

  lemma MarkAfter(s: string, c: char, mark: nat, t: string)
    requires mark + 1 + |t| < |s| && s[mark] != c && s[mark + 1 + |t|] == c
    requires s[mark + 1..mark + 1 + |t|] == t && c !in t
    ensures IndexOf(s, c, mark) == Some(mark + 1 + |t|)
  {
    NextMark(s, c, mark + 1, t);
  }

  lemma FirstDirective(s: string, k: nat)
    requires DirectiveAt(s, k) && forall j :: 0 <= j < k ==> !DirectiveAt(s, j)
    ensures FindDirective(s, 0) == Some(k)
  {
  }

  /** Where the pieces of a written directive are. */
  lemma Pieces(pre: string, gap: string, first: string, second: string, post: string)
    ensures var s := Written(pre, gap, first, second, post);
      var inc := |pre|; var beg := inc + |DIRECTIVE| + |gap|;
      var sep := beg + 1 + |first|; var end := sep + 1 + |second|;
      && end < |s| && s[beg] == '(' && s[sep] == ',' && s[end] == ')' && DirectiveAt(s, inc)
      && s[inc..beg] == DIRECTIVE + gap && s[beg + 1..sep] == first && s[sep + 1..end] == second
  {
    var s := Written(pre, gap, first, second, post);
    var head := pre + (DIRECTIVE + gap);
    var front := head + "(" + first;
    var beg := |head|;
    assert s == head + "(" + first + ("," + second + ")" + post);
    Between(head, '(', first, "," + second + ")" + post);
    assert s == front + "," + second + (")" + post);
    Between(front, ',', second, ")" + post);
    assert s[|pre|..beg] == DIRECTIVE + gap;
    assert s[|pre|..|pre| + |DIRECTIVE|] == s[|pre|..beg][..|DIRECTIVE|] == DIRECTIVE;
  }

  lemma MarksAre(s: string, inc: nat, gap: string, first: string, second: string, beg: nat, sep: nat, end: nat)
    requires inc + |gap| == beg && beg + 1 + |first| == sep && sep + 1 + |second| == end < |s|
    requires s[beg] == '(' && s[sep] == ',' && s[end] == ')' && '(' !in gap && ',' !in first && ')' !in second
    requires DirectiveAt(s, inc) && forall j :: 0 <= j < inc ==> !DirectiveAt(s, j)
    requires s[inc..beg] == gap && s[beg + 1..sep] == first && s[sep + 1..end] == second
    ensures FindMarks(s) == Some(Marks(beg, sep, end))
  {
    FirstDirective(s, inc);
    NextMark(s, '(', inc, gap);
    MarkAfter(s, ',', beg, first);
    MarkAfter(s, ')', sep, second);
  }

  /** The marks of a written directive are the ones written, so the parts between them are too. */
  lemma MarksFound(pre: string, gap: string, first: string, second: string, post: string)
    requires '(' !in gap && ',' !in first && ')' !in second
    requires forall k :: 0 <= k < |pre| ==> !DirectiveAt(Written(pre, gap, first, second, post), k)
    ensures var s := Written(pre, gap, first, second, post); var m := FindMarks(s);
      m.Some? && NamePart(s, m.value) == first && FilePart(s, m.value) == second
  {
    var s := Written(pre, gap, first, second, post);
    var inc := |pre|;
    var beg := inc + |DIRECTIVE| + |gap|;
    var sep := beg + 1 + |first|;
    var end := sep + 1 + |second|;
    Pieces(pre, gap, first, second, post);
    MarksAre(s, inc, DIRECTIVE + gap, first, second, beg, sep, end);
  }

  /** INCBIN(name, "path") with any white space inside the parentheses.  The name has no comma and neither
      begins nor ends with white space, the path has no closing parenthesis, and no INCBIN is earlier on the
      line: the scan shows that name and the quoted path, and opens that path. */
  lemma WrittenIsRead(pre: string, gap: string, w1: string, name: string, w2: string,
                      w3: string, path: string, w4: string, post: string)
    requires AllSpace(w1) && AllSpace(w2) && AllSpace(w3) && AllSpace(w4) && '(' !in gap
    requires ',' !in name && name != "" && !IsSpace(name[0]) && !IsSpace(name[|name| - 1]) && ')' !in path
    requires forall k :: 0 <= k < |pre| ==>
      !DirectiveAt(Written(pre, gap, w1 + name + w2, w3 + ("\"" + path + "\"") + w4, post), k)
    ensures var s := Written(pre, gap, w1 + name + w2, w3 + ("\"" + path + "\"") + w4, post);
      DirectiveOn(s) == Some(Directive(name, "\"" + path + "\"", path))
  {
    var quoted := "\"" + path + "\"";
    PaddedTrims(w1, name, w2);
    PaddedTrims(w3, quoted, w4);
    assert Inside(quoted) == path;
    MarksFound(pre, gap, w1 + name + w2, w3 + quoted + w4, post);
  }

  lemma PaddedTrimsRight(w: string, x: string, w': string)
    requires AllSpace(w') && x != "" && !IsSpace(x[|x| - 1])
    ensures TrimRight(w + x + w') == w + x
  {
    var s := w + x + w';
    var b := |w + x|;
    assert s[b - 1] == x[|x| - 1] && SpaceIn(s, b, |s|);
    TrimRightIs(s, b);
    assert s[..b] == w + x;
  }

  /** The same line with only white space for a name: the scan shows the comma and the quoted path as the name. */
  lemma BlankNameIsRead(pre: string, gap: string, w: string, w3: string, path: string, w4: string, post: string)
    requires AllSpace(w) && w != "" && AllSpace(w3) && AllSpace(w4) && '(' !in gap && ')' !in path
    requires forall k :: 0 <= k < |pre| ==>
      !DirectiveAt(Written(pre, gap, w, w3 + ("\"" + path + "\"") + w4, post), k)
    ensures var s := Written(pre, gap, w, w3 + ("\"" + path + "\"") + w4, post);
      DirectiveOn(s) == Some(Directive("," + (w3 + ("\"" + path + "\"")), "\"" + path + "\"", path))
  {
    var quoted := "\"" + path + "\"";
    PaddedTrims(w3, quoted, w4);
    PaddedTrimsRight(w3, quoted, w4);
    assert Inside(quoted) == path;
    MarksFound(pre, gap, w, w3 + quoted + w4, post);
  }

  /** An input: a directive for the file x without a name. */
  lemma NamelessDirective(s: string, quoted: string)
    requires quoted == "\"x\"" && s == "INCBIN( ," + quoted + ")"
    ensures DirectiveOn(s) == Some(Directive("," + quoted, quoted, "x"))
  {
    NamelessLine(s, quoted);
    BlankNameIsRead("", "", " ", "", "x", "", "");
    assert "\"" + "x" + "\"" == quoted && "" + quoted == quoted && "" + quoted + "" == quoted;
  }

  lemma NamelessLine(s: string, quoted: string)
    requires s == "INCBIN( ," + quoted + ")"
    ensures s == Written("", "", " ", "" + quoted + "", "")
  {
    assert "" + quoted + "" == quoted;
  }
}
