/**
 * Splitting a product name into per-character glyphs for the staggered
 * reveal: one hidden inline-block glyph per character, in order, with a
 * space rendered as a no-break space so the inline-block glyph keeps
 * its width.
 */
module Glyphs {

  /** U+00A0, the content a space glyph is given. */
  const NoBreakSpace: char := '\U{00A0}'

  /** One span the split appends: its text, whether it is laid out inline-block, and its opacity. */
  datatype Glyph = Glyph(content: char, inlineBlock: bool, opacity: real)

  function GlyphFor(c: char): Glyph {
    Glyph(if c == ' ' then NoBreakSpace else c, true, 0.0)
  }

  /** The spans that replace the element's text, one per character, each starting fully transparent. */
  function SplitTextToSpans(text: string): (glyphs: seq<Glyph>)
    ensures |glyphs| == |text|
    ensures forall i :: 0 <= i < |text| ==> glyphs[i].opacity == 0.0 && glyphs[i].inlineBlock
    ensures forall i :: 0 <= i < |text| ==>
      glyphs[i].content == if text[i] == ' ' then NoBreakSpace else text[i]
  {
    if text == [] then [] else [GlyphFor(text[0])] + SplitTextToSpans(text[1..])
  }

  /** The element's text after the split: the glyphs' contents joined in order. */
  function TextOf(glyphs: seq<Glyph>): (s: string)
    ensures |s| == |glyphs|
    ensures forall i :: 0 <= i < |glyphs| ==> s[i] == glyphs[i].content
  {
    if glyphs == [] then [] else [glyphs[0].content] + TextOf(glyphs[1..])
  }

  /** Turns every no-break space back into a space. */
  function RestoreSpaces(s: string): string {
    if s == [] then [] else [if s[0] == NoBreakSpace then ' ' else s[0]] + RestoreSpaces(s[1..])
  }

  /** Splitting a concatenation splits each part: glyphs come out in the order of the text. */
  lemma {:induction false} SplitConcat(a: string, b: string)
    ensures SplitTextToSpans(a + b) == SplitTextToSpans(a) + SplitTextToSpans(b)
  {
    if a == [] {
      assert a + b == b;
    } else {
      assert (a + b)[1..] == a[1..] + b;
      SplitConcat(a[1..], b);
    }
  }

  /** The split text shows no plain space and keeps the text's length. */
  lemma SplitTextHasNoSpaces(text: string)
    ensures |TextOf(SplitTextToSpans(text))| == |text|
    ensures ' ' !in TextOf(SplitTextToSpans(text))
  {
    var s := TextOf(SplitTextToSpans(text));
    assert forall i :: 0 <= i < |s| ==> s[i] != ' ';
  }

  /** For a text without no-break spaces, the split loses nothing: restoring the spaces gives the text back. */
  lemma {:induction false} SplitRoundTrip(text: string)
    requires NoBreakSpace !in text
    ensures RestoreSpaces(TextOf(SplitTextToSpans(text))) == text
  {
    if text != [] {
      var g := SplitTextToSpans(text);
      assert g == [GlyphFor(text[0])] + SplitTextToSpans(text[1..]);
      assert g[1..] == SplitTextToSpans(text[1..]);
      var s := TextOf(g);
      assert s[1..] == TextOf(g[1..]);
      assert NoBreakSpace !in text[1..] by {
        forall c | c in text[1..] ensures c != NoBreakSpace {
        }
      }
      SplitRoundTrip(text[1..]);
    }
  }
}
