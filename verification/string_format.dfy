/**
 * Positional placeholder substitution standing in for the
 * `Ext.String.format(result, p0, p1, ...)` call of `translate`; the Ext
 * library itself is not part of this model. Every match of the pattern
 * `\{(\d+)\}`, scanned left to right, is replaced by the parameter it
 * names, where only canonical index text ("0", "7", "12", not "01") names
 * a parameter. What the library does with a placeholder that names no
 * parameter is not known here; this stand-in chooses to leave it exactly
 * as written.
 */
module StringFormat {

  predicate IsDigit(c: char)
  {
    '0' <= c <= '9'
  }

  predicate AllDigits(s: string)
  {
    forall i :: 0 <= i < |s| ==> IsDigit(s[i])
  }

  /** The length of the longest run of digits at the front of `s`. */
  function DigitRun(s: string): (n: nat)
    ensures n <= |s|
    ensures AllDigits(s[..n])
    ensures n < |s| ==> !IsDigit(s[n])
  {
    if s != [] && IsDigit(s[0]) then 1 + DigitRun(s[1..]) else 0
  }

  /** The number a string of decimal digits denotes. */
  function DigitValue(s: string): nat
    requires AllDigits(s)
  {
    if s == [] then 0 else DigitValue(s[..|s| - 1]) * 10 + (s[|s| - 1] as int - '0' as int)
  }

  /** Digits that name an array element: no leading zero unless the text is "0". */
  predicate IsIndexText(s: string)
  {
    |s| >= 1 && AllDigits(s) && (|s| == 1 || s[0] != '0')
  }

  function DigitChar(d: nat): (c: char)
    requires d < 10
    ensures IsDigit(c) && c as int - '0' as int == d
  {
    ('0' as int + d) as char
  }

  /** The canonical decimal text of `n`. */
  function DecimalText(n: nat): (s: string)
    ensures IsIndexText(s)
  {
    if n < 10 then [DigitChar(n)] else DecimalText(n / 10) + [DigitChar(n % 10)]
  }

  lemma {:induction false} DecimalTextValue(n: nat)
    ensures DigitValue(DecimalText(n)) == n
  {
    if n >= 10 {
      var s := DecimalText(n);
      assert s[..|s| - 1] == DecimalText(n / 10);
      DecimalTextValue(n / 10);
    }
  }

  /** What the placeholder `{digits}` becomes. */
  function Placeholder(digits: string, params: seq<string>): (r: string)
    requires AllDigits(digits)
    ensures r == "{" + digits + "}" || (IsIndexText(digits) && DigitValue(digits) < |params| && r == params[DigitValue(digits)])
  {
    if IsIndexText(digits) && DigitValue(digits) < |params| then params[DigitValue(digits)]
    else "{" + digits + "}"
  }

  /**
   * `Ext.String.format(template, params...)`. With no parameters every
   * placeholder names nothing, so the template comes back unchanged.
   */
  function Format(template: string, params: seq<string>): (r: string)
    ensures |params| == 0 ==> r == template
    decreases |template|
  {
    if template == [] then []
    else
      var n := DigitRun(template[1..]);
      if template[0] == '{' && n > 0 && n + 1 < |template| && template[n + 1] == '}' then
        assert template[1..n + 1] == template[1..][..n];
        assert template == "{" + template[1..n + 1] + "}" + template[n + 2..];
        Placeholder(template[1..n + 1], params) + Format(template[n + 2..], params)
      else
        [template[0]] + Format(template[1..], params)
  }

  /** A character other than `{` is copied and the scan moves on. */
  lemma FormatLiteralChar(c: char, rest: string, params: seq<string>)
    requires c != '{'
    ensures Format([c] + rest, params) == [c] + Format(rest, params)
  {
    var t := [c] + rest;
    assert t[0] == c && t[1..] == rest;
  }

  /** Text without an opening brace passes through the scan unchanged. */
  lemma {:induction false} FormatLiteralPrefix(text: string, rest: string, params: seq<string>)
    requires '{' !in text
    ensures Format(text + rest, params) == text + Format(rest, params)
  {
    if text != [] {
      var t := text + rest;
      assert t == [text[0]] + (text[1..] + rest);
      FormatLiteralChar(text[0], text[1..] + rest, params);
      FormatLiteralPrefix(text[1..], rest, params);
      assert text == [text[0]] + text[1..];
    } else {
      assert text + rest == rest;
    }
  }

  lemma {:induction false} DigitRunOfDigits(digits: string, rest: string)
    requires AllDigits(digits)
    requires rest == [] || !IsDigit(rest[0])
    ensures DigitRun(digits + rest) == |digits|
  {
    if digits != [] {
      assert (digits + rest)[1..] == digits[1..] + rest;
      DigitRunOfDigits(digits[1..], rest);
    }
  }

  /** Where the scan meets `{digits}`, the placeholder is replaced and the scan resumes after it. */
  lemma FormatPlaceholderAt(t: string, n: nat, params: seq<string>)
    requires 0 < n && n + 1 < |t| && t[0] == '{' && t[n + 1] == '}'
    requires DigitRun(t[1..]) == n
    ensures AllDigits(t[1..n + 1])
    ensures Format(t, params) == Placeholder(t[1..n + 1], params) + Format(t[n + 2..], params)
  {
    assert t[1..n + 1] == t[1..][..n];
  }

  lemma BracedSplit(d: string, rest: string)
    ensures var t := "{" + d + "}" + rest;
      && |t| == |d| + 2 + |rest| && t[0] == '{' && t[|d| + 1] == '}'
      && t[1..] == d + ("}" + rest) && t[1..|d| + 1] == d && t[|d| + 2..] == rest
  {
    var t := "{" + d + "}" + rest;
    assert t[1..] == d + ("}" + rest);
    assert t[1..|d| + 1] == d;
  }

  /** The canonical placeholder for parameter `i`. */
  function SlotText(i: nat): string
  {
    "{" + DecimalText(i) + "}"
  }

  /** A braced run of digits is replaced as `Placeholder` says, and the scan resumes after it. */
  lemma FormatBraced(d: string, rest: string, params: seq<string>)
    requires |d| > 0 && AllDigits(d)
    ensures Format("{" + d + "}" + rest, params) == Placeholder(d, params) + Format(rest, params)
  {
    var t := "{" + d + "}" + rest;
    BracedSplit(d, rest);
    DigitRunOfDigits(d, "}" + rest);
    FormatPlaceholderAt(t, |d|, params);
  }

  /** A placeholder `{i}` written in canonical form is replaced by `params[i]`. */
  lemma FormatSlot(i: nat, rest: string, params: seq<string>)
    ensures Format(SlotText(i) + rest, params)
         == (if i < |params| then params[i] else SlotText(i)) + Format(rest, params)
  {
    var d := DecimalText(i);
    FormatBraced(d, rest, params);
    DecimalTextValue(i);
  }

  /** A template as a sequence of literal text and numbered placeholders. */
  datatype Piece = Text(text: string) | Slot(index: nat)

  /** Literal text may not open a brace, so each piece reads back as itself. */
  predicate WellFormed(pieces: seq<Piece>)
  {
    forall k :: 0 <= k < |pieces| && pieces[k].Text? ==> '{' !in pieces[k].text
  }

  function PieceText(p: Piece): string
  {
    match p
    case Text(t) => t
    case Slot(i) => SlotText(i)
  }

  /** The template string the pieces spell. */
  function Render(pieces: seq<Piece>): string
  {
    if pieces == [] then "" else PieceText(pieces[0]) + Render(pieces[1..])
  }

  /** The reference meaning of a template: each slot `i` becomes `params[i]` if there is one. */
  function Fill(pieces: seq<Piece>, params: seq<string>): string
  {
    if pieces == [] then ""
    else
      var head := match pieces[0]
        case Text(t) => t
        case Slot(i) => if i < |params| then params[i] else PieceText(pieces[0]);
      head + Fill(pieces[1..], params)
  }

  /** Formatting a rendered template substitutes exactly its slots. */
  lemma {:induction false} FormatRender(pieces: seq<Piece>, params: seq<string>)
    requires WellFormed(pieces)
    ensures Format(Render(pieces), params) == Fill(pieces, params)
  {
    if pieces != [] {
      var rest := Render(pieces[1..]);
      assert WellFormed(pieces[1..]) by {
        forall k | 0 <= k < |pieces| - 1 && pieces[1..][k].Text?
          ensures '{' !in pieces[1..][k].text
        {
          assert pieces[1..][k] == pieces[k + 1];
        }
      }
      FormatRender(pieces[1..], params);
      match pieces[0]
      case Text(t) =>
        FormatLiteralPrefix(t, rest, params);
      case Slot(i) =>
        FormatSlot(i, rest, params);
    }
  }

  /** Text with no opening brace has no placeholder: formatting leaves it alone. */
  lemma FormatWithoutPlaceholders(text: string, params: seq<string>)
    requires '{' !in text
    ensures Format(text, params) == text
  {
    FormatLiteralPrefix(text, "", params);
    assert text + "" == text;
  }
}
