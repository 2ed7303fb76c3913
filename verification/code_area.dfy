/** The height given to each code text area when the page loads: 20 pixels
    per line plus 40, kept between 200 and 400 pixels. */
module CodeArea {

  const LineHeight := 20
  const Padding := 40
  const MinHeight := 200
  const MaxHeight := 400

  /** `text.split('\n').length`: one more than the number of line feeds. */
  function LineCount(text: string): (n: nat)
    ensures 1 <= n <= |text| + 1
  {
    if |text| == 0 then 1
    else (if text[0] == '\n' then 1 else 0) + LineCount(text[1..])
  }

  /** Joining two texts with a line feed adds their line counts, as splitting
      at that line feed would. */
  lemma {:induction false} LineCountJoin(a: string, b: string)
    ensures LineCount(a + "\n" + b) == LineCount(a) + LineCount(b)
  {
    if |a| == 0 {
      assert a + "\n" + b == "\n" + b;
      assert ("\n" + b)[1..] == b;
    } else {
      LineCountJoin(a[1..], b);
      assert (a + "\n" + b)[1..] == a[1..] + "\n" + b;
    }
  }

  /** `Math.max(200, Math.min(400, lines * 20 + 40))`. */
  function Height(lines: int): (h: int)
    ensures MinHeight <= h <= MaxHeight
    ensures lines <= 8 ==> h == MinHeight
    ensures lines >= 18 ==> h == MaxHeight
    ensures 8 <= lines <= 18 ==> h == lines * LineHeight + Padding
  {
    var wanted := lines * LineHeight + Padding;
    var capped := if wanted < MaxHeight then wanted else MaxHeight;
    if capped > MinHeight then capped else MinHeight
  }

  /** The height given to a text area holding `text`. */
  function TextareaHeight(text: string): (h: int)
    ensures MinHeight <= h <= MaxHeight
    ensures LineCount(text) <= 8 ==> h == MinHeight
    ensures LineCount(text) >= 18 ==> h == MaxHeight
  {
    Height(LineCount(text))
  }

  /** More lines never make the area shorter. */
  lemma HeightMonotone(a: int, b: int)
    requires a <= b
    ensures Height(a) <= Height(b)
  {
  }

  /** A text with no line feed gets the minimum height. */
  lemma {:induction false} SingleLineHeight(text: string)
    requires forall k :: 0 <= k < |text| ==> text[k] != '\n'
    ensures LineCount(text) == 1 && TextareaHeight(text) == MinHeight
  {
    if |text| > 0 {
      assert forall k :: 0 <= k < |text[1..]| ==> text[1..][k] == text[k + 1];
      SingleLineHeight(text[1..]);
    }
  }
}
