/** incbin's output: bytes as a C initializer list, twelve to a line, and reading it back. */
module IncbinHex {

  import opened Wrappers
  import D = IncbinDirective

  type Byte = b: nat | b < 256

  // ---------------------------------------------------------------------------
  // Reading an initializer list
  // ---------------------------------------------------------------------------

  function DigitValue(c: char): Option<nat> {
    if '0' <= c <= '9' then Some(c as nat - '0' as nat)
    else if 'A' <= c <= 'F' then Some(c as nat - 'A' as nat + 10)
    else if 'a' <= c <= 'f' then Some(c as nat - 'a' as nat + 10)
    else None
  }

  function SkipSpace(s: string): (r: string)
    ensures |r| <= |s|
  {
    if s != [] && D.IsSpace(s[0]) then SkipSpace(s[1..]) else s
  }

  /** The two-digit constant at the start of a text. */
  function ReadHex(t: string): Option<Byte> {
    if |t| < 4 || t[0] != '0' || t[1] != 'x' || DigitValue(t[2]).None? || DigitValue(t[3]).None? then None
    else
      var b := DigitValue(t[2]).value * 16 + DigitValue(t[3]).value;
      if b < 256 then Some(b) else None
  }

  /** A list of one or more two-digit hexadecimal constants, separated by commas, with white space between. */
  function ReadBack(s: string): Option<seq<Byte>>
    decreases |s|
  {
    var t := SkipSpace(s);
    match ReadHex(t)
    case None => None
    case Some(b) =>
      var u := SkipSpace(t[4..]);
      if u == [] then Some([b])
      else if u[0] != ',' then None
      else
        match ReadBack(u[1..])
        case None => None
        case Some(bs) => Some([b] + bs)
  }

  // ---------------------------------------------------------------------------
  // Writing one
  // ---------------------------------------------------------------------------

  function Digit(d: nat): char
    requires d < 16
  {
    if d < 10 then ('0' as int + d) as char else ('A' as int + d - 10) as char
  }

  /** printf's "0x%02X" */
  function Hex(b: Byte): (s: string)
    ensures |s| == 4 && s[0] == '0' && s[1] == 'x'
    ensures forall k :: 2 <= k < 4 ==> '0' <= s[k] <= '9' || 'A' <= s[k] <= 'F'
  {
    ['0', 'x', Digit(b / 16), Digit(b % 16)]
  }

  lemma HexReads(b: Byte, rest: string)
    ensures ReadHex(Hex(b) + rest) == Some(b)
  {
    var t := Hex(b) + rest;
    assert t[2] == Digit(b / 16) && t[3] == Digit(b % 16);
    assert DigitValue(t[2]) == Some(b / 16) && DigitValue(t[3]) == Some(b % 16);
  }

  function Break(i: nat): string {
    if i > 0 && i % 12 == 0 then "\n    " else ""
  }

  function Separator(data: seq<Byte>, i: nat): string {
    if i + 1 < |data| then ", " else ""
  }

  /** The text for the bytes from `i` on: a line break before every twelfth, a separator after all but the last. */
  function TextFrom(data: seq<Byte>, i: nat): string
    requires i <= |data|
    decreases |data| - i
  {
    if i == |data| then "" else Break(i) + Hex(data[i]) + Separator(data, i) + TextFrom(data, i + 1)
  }

  lemma {:induction false} SkipPrefix(lead: string, s: string)
    requires forall k :: 0 <= k < |lead| ==> D.IsSpace(lead[k])
    ensures SkipSpace(lead + s) == SkipSpace(s)
    decreases |lead|
  {
    if lead == [] {
      assert lead + s == s;
    } else {
      assert (lead + s)[1..] == lead[1..] + s;
      SkipPrefix(lead[1..], s);
    }
  }

  /** Reading one constant, after white space and before `rest`. */
  lemma ReadOne(lead: string, b: Byte, rest: string)
    requires forall k :: 0 <= k < |lead| ==> D.IsSpace(lead[k])
    ensures rest == [] ==> ReadBack(lead + (Hex(b) + rest)) == Some([b])
    ensures rest != [] && rest[0] == ',' ==>
      ReadBack(lead + (Hex(b) + rest)) ==
      if ReadBack(rest[1..]).None? then None else Some([b] + ReadBack(rest[1..]).value)
  {
    var t := Hex(b) + rest;
    SkipPrefix(lead, t);
    assert SkipSpace(t) == t;
    HexReads(b, rest);
    assert t[4..] == rest;
    assert rest != [] && rest[0] == ',' ==> SkipSpace(rest) == rest;
  }

  lemma TextParts(data: seq<Byte>, i: nat, lead: string)
    requires i < |data|
    ensures lead + TextFrom(data, i) ==
            (lead + Break(i)) + (Hex(data[i]) + (Separator(data, i) + TextFrom(data, i + 1)))
  {
  }

  lemma BreakIsSpace(lead: string, i: nat)
    requires lead == "" || lead == " "
    ensures forall k :: 0 <= k < |lead + Break(i)| ==> D.IsSpace((lead + Break(i))[k])
  {
  }

  lemma ReadLast(data: seq<Byte>, i: nat, lead: string)
    requires i + 1 == |data| && (lead == "" || lead == " ")
    ensures ReadBack(lead + TextFrom(data, i)) == Some(data[i..])
  {
    TextParts(data, i, lead);
    BreakIsSpace(lead, i);
    ReadOne(lead + Break(i), data[i], "");
    assert Separator(data, i) + TextFrom(data, i + 1) == "";
    assert data[i..] == [data[i]];
  }

  lemma ReadNext(data: seq<Byte>, i: nat, lead: string)
    requires i + 1 < |data| && (lead == "" || lead == " ")
    requires ReadBack(" " + TextFrom(data, i + 1)) == Some(data[i + 1..])
    ensures ReadBack(lead + TextFrom(data, i)) == Some(data[i..])
  {
    var after := TextFrom(data, i + 1);
    var rest := ", " + after;
    TextParts(data, i, lead);
    BreakIsSpace(lead, i);
    ReadOne(lead + Break(i), data[i], rest);
    assert rest[1..] == " " + after;
    assert data[i..] == [data[i]] + data[i + 1..];
  }

  /** What is written from byte `i` on, read back after the space of a separator, is the data from `i` on. */
  lemma {:induction false} ReadBackFrom(data: seq<Byte>, i: nat, lead: string)
    requires i < |data| && (lead == "" || lead == " ")
    ensures ReadBack(lead + TextFrom(data, i)) == Some(data[i..])
    decreases |data| - i
  {
    if i + 1 == |data| {
      ReadLast(data, i, lead);
    } else {
      ReadBackFrom(data, i + 1, " ");
      ReadNext(data, i, lead);
    }
  }

  /** For any non-empty data the emitted text reads back as exactly that data. */
  lemma EmittedReadsBack(data: seq<Byte>)
    requires data != []
    ensures ReadBack(TextFrom(data, 0)) == Some(data)
  {
    ReadBackFrom(data, 0, "");
    assert "" + TextFrom(data, 0) == TextFrom(data, 0);
    assert data[0..] == data;
  }

  // ---------------------------------------------------------------------------
  // The layout
  // ---------------------------------------------------------------------------

  /** Where the constant of byte `i` begins: six characters for each byte before it, and five for each line break. */
  function Place(i: nat): nat {
    6 * i + 5 * (i / 12)
  }

  lemma PlaceStep(i: nat)
    ensures Place(i + 1) == Place(i) + 6 + |Break(i + 1)|
  {
  }

  /** What comes before byte `j` and its line break. */
  lemma {:induction false} TextBefore(data: seq<Byte>, j: nat) returns (pre: string)
    requires j < |data|
    ensures TextFrom(data, 0) == pre + TextFrom(data, j) && |pre| + |Break(j)| == Place(j)
    decreases j
  {
    if j == 0 {
      pre := "";
    } else {
      var i := j - 1;
      pre := TextBefore(data, i);
      PlaceStep(i);
      var one := Break(i) + Hex(data[i]) + ", ";
      assert TextFrom(data, i) == one + TextFrom(data, j);
      assert pre + (one + TextFrom(data, j)) == (pre + one) + TextFrom(data, j);
      pre := pre + one;
    }
  }

  lemma TextHead(data: seq<Byte>, i: nat)
    requires i < |data|
    ensures TextFrom(data, i) == Break(i) + (Hex(data[i]) + (Separator(data, i) + TextFrom(data, i + 1)))
  {
  }

  lemma Placed(pre: string, brk: string, hex: string, rest: string, text: string)
    requires text == pre + (brk + (hex + rest))
    ensures var at := |pre| + |brk|;
      at + |hex| <= |text| && text[at..at + |hex|] == hex && text[|pre|..at] == brk
  {
  }

  /** The layout of what is emitted: every constant stands at its place, twelve to a line, each line but the first
      begun by a line break and four spaces. */
  lemma Layout(data: seq<Byte>, j: nat)
    requires j < |data|
    ensures var text := TextFrom(data, 0); var at := Place(j);
      && at + 4 <= |text| && text[at..at + 4] == Hex(data[j])
      && (j > 0 && j % 12 == 0 ==> at >= 5 && text[at - 5..at] == "\n    ")
  {
    var pre := TextBefore(data, j);
    TextHead(data, j);
    Placed(pre, Break(j), Hex(data[j]), Separator(data, j) + TextFrom(data, j + 1), TextFrom(data, 0));
  }

  /** How many constants are on the current line when byte `i` is next. */
  function OnLine(i: nat): nat {
    if i > 0 && i % 12 == 0 then 12 else i % 12
  }

  lemma OnLineStep(i: nat)
    ensures OnLine(i + 1) == (if OnLine(i) == 12 then 0 else OnLine(i)) + 1
    ensures Break(i) == if OnLine(i) == 12 then "\n    " else ""
  {
  }

  lemma WrittenOne(before: string, after: string, data: seq<Byte>, i: nat)
    requires i < |data| && after == before + Break(i) + Hex(data[i]) + Separator(data, i)
    ensures after + TextFrom(data, i + 1) == before + TextFrom(data, i)
  {
  }

  /** The body of the emission loop. */
  method EmitOne(before: string, onLine: nat, data: seq<Byte>, i: nat) returns (out: string, count: nat)
    requires i < |data| && onLine == OnLine(i)
    ensures out + TextFrom(data, i + 1) == before + TextFrom(data, i) && count == OnLine(i + 1)
  {
    OnLineStep(i);
    out, count := before, onLine;
    if count == 12 {
      out := out + "\n    ";
      count := 0;
    }
    assert out == before + Break(i);
    out := out + Hex(data[i]) + if i != |data| - 1 then ", " else "";
    count := count + 1;
    WrittenOne(before, out, data, i);
  }

  /** The emission loop of `main`, for data that was read; `out` is what it prints between the braces. */
  method Emit(data: seq<Byte>) returns (out: string)
    ensures out == TextFrom(data, 0)
    ensures data != [] ==> ReadBack(out) == Some(data)
  {
    out := "";
    var count := 0;
    for i := 0 to |data|
      invariant out + TextFrom(data, i) == TextFrom(data, 0)
      invariant count == OnLine(i)
    {
      out, count := EmitOne(out, count, data, i);
    }
    if data != [] {
      EmittedReadsBack(data);
    }
  }
}
