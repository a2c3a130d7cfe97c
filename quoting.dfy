/**
 * The text a reply starts from: the quoted text wrapped in a `[quote]` block
 * whose opening tag carries a localized attribution header, and the decimal
 * text of a comment id that goes into that header.
 */
module Quoting {
  import opened Wrappers

  const Closing: string := "\n[/quote]\n\n"

  function Opening(header: string): string
  {
    "[quote " + header + "]\n"
  }

  /** `'[quote ' + header + ']\n' + text + '\n[/quote]\n\n'`. */
  function QuoteBlock(header: string, text: string): string
  {
    Opening(header) + text + Closing
  }

  /**
   * Reads back the quoted text of a block opened with `header`: None unless
   * the block starts with that opening tag and ends with the closing tag.
   */
  function QuotedText(block: string, header: string): (r: Option<string>)
    ensures r.Some? ==> block == QuoteBlock(header, r.value)
  {
    var n, m := |Opening(header)|, |Closing|;
    if n + m <= |block| && block[..n] == Opening(header) && block[|block| - m..] == Closing then
      var text := block[n..|block| - m];
      assert block == block[..n] + text + block[|block| - m..];
      Some(text)
    else
      None
  }

  /** The quoted text is recovered whatever it contains: a reply quotes its source verbatim. */
  lemma QuotedTextOfQuoteBlock(header: string, text: string)
    ensures QuotedText(QuoteBlock(header, text), header) == Some(text)
  {
    var block := QuoteBlock(header, text);
    var n := |Opening(header)|;
    assert block[..n] == Opening(header);
    assert block[n..|block| - |Closing|] == text;
    assert block[|block| - |Closing|..] == Closing;
  }

  /** Blocks with the same header are equal only when they quote the same text. */
  lemma QuoteBlockInjective(header: string, text1: string, text2: string)
    requires QuoteBlock(header, text1) == QuoteBlock(header, text2)
    ensures text1 == text2
  {
    QuotedTextOfQuoteBlock(header, text1);
    QuotedTextOfQuoteBlock(header, text2);
  }

  function Digit(d: nat): (c: char)
    requires d < 10
    ensures '0' <= c <= '9'
  {
    "0123456789"[d]
  }

  function DigitValue(c: char): nat
    requires '0' <= c <= '9'
  {
    c as int - '0' as int
  }

  /** Decimal digits of `n`, without leading zeros. */
  function NatText(n: nat): (s: string)
    ensures |s| > 0
    ensures forall i :: 0 <= i < |s| ==> '0' <= s[i] <= '9'
    ensures |s| > 1 ==> s[0] != '0'
    decreases n
  {
    if n < 10 then [Digit(n)] else NatText(n / 10) + [Digit(n % 10)]
  }

  /** The number a string of decimal digits denotes. */
  function DecimalValue(s: string): nat
    requires forall i :: 0 <= i < |s| ==> '0' <= s[i] <= '9'
  {
    if s == [] then 0 else DecimalValue(s[..|s| - 1]) * 10 + DigitValue(s[|s| - 1])
  }

  /** Reading the digits of `n` back gives `n`: distinct ids get distinct texts. */
  lemma {:induction false} DecimalValueOfNatText(n: nat)
    ensures DecimalValue(NatText(n)) == n
    decreases n
  {
    if n >= 10 {
      var s := NatText(n);
      DecimalValueOfNatText(n / 10);
      assert s[..|s| - 1] == NatText(n / 10);
    }
  }

  /**
   * JavaScript's string form of an integer id, as in `'#' + commentId`: a
   * '-' for a negative id, then its decimal digits. JavaScript switches to
   * exponent notation from 1e21 on; ids never come near that.
   */
  function IdText(id: int): (s: string)
    ensures |s| > 0 && (s[0] == '-' <==> id < 0)
    ensures var digits := if id < 0 then s[1..] else s;
      && |digits| > 0
      && (forall i :: 0 <= i < |digits| ==> '0' <= digits[i] <= '9')
      && DecimalValue(digits) == if id < 0 then -id else id
  {
    var n: nat := if id < 0 then -id else id;
    DecimalValueOfNatText(n);
    var s := if id < 0 then "-" + NatText(n) else NatText(n);
    assert id < 0 ==> s[1..] == NatText(n);
    s
  }

  /** Different ids render differently, so the header names the quoted comment unambiguously. */
  lemma IdTextInjective(a: int, b: int)
    requires IdText(a) == IdText(b)
    ensures a == b
  {
    var sa, sb := IdText(a), IdText(b);
    if a < 0 && b < 0 {
      assert sa[1..] == NatText(-a) && sb[1..] == NatText(-b);
      NatTextInjective(-a, -b);
    } else if a >= 0 && b >= 0 {
      NatTextInjective(a, b);
    }
  }

  lemma NatTextInjective(a: nat, b: nat)
    requires NatText(a) == NatText(b)
    ensures a == b
  {
    DecimalValueOfNatText(a);
    DecimalValueOfNatText(b);
  }
}
