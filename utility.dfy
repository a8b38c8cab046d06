/** Score bucketing of src/c/utility/utility.c: the label text and the
    bubble colour for a score, both chosen by the same threshold chain with
    inclusive lower bounds 8, 6 and 3. */
module Utility {
  import opened IntTypes

  /** The four visibility classes, defined by score ranges alone. */
  datatype Visibility = Visible | PartlyVisible | BarelyVisible | NotVisible

  /** The range each class covers; the sentinel -1 belongs to NotVisible. */
  predicate InClass(score: int8, v: Visibility) {
    match v
    case Visible => 8 <= score
    case PartlyVisible => 6 <= score <= 7
    case BarelyVisible => 3 <= score <= 5
    case NotVisible => score <= 2
  }

  /** The class of a score; every `int8_t` has one. */
  function Classify(score: int8): (v: Visibility)
    ensures InClass(score, v)
  {
    if score >= 8 then Visible
    else if score >= 6 then PartlyVisible
    else if score >= 3 then BarelyVisible
    else NotVisible
  }

  /** No score belongs to two classes. */
  lemma ClassesDisjoint(score: int8, v: Visibility, w: Visibility)
    requires InClass(score, v) && InClass(score, w)
    ensures v == w
  {
  }

  /** The colour builds: PBL_BW (black and white) or a colour display. */
  datatype Build = ColorBuild | BlackAndWhiteBuild

  /** The GColor values get_score_bubble_color can return. */
  datatype GColor = White | IslamicGreen | VividCerulean | Rajah | Red

  const VisibleText: string := "Visible"
  const PartlyVisibleText: string := "Partly\nVisible"
  const BarelyVisibleText: string := "Barely\nVisible"
  const NotVisibleText: string := "Not\nVisible"

  /** get_score_text */
  function ScoreText(score: int8): (text: string)
    ensures text == VisibleText || text == PartlyVisibleText || text == BarelyVisibleText || text == NotVisibleText
  {
    if score >= 8 then VisibleText
    else if score >= 6 then PartlyVisibleText
    else if score >= 3 then BarelyVisibleText
    else NotVisibleText
  }

  /** get_score_bubble_color: white for every score in the black-and-white
      build, one colour per class in the colour build. */
  function ScoreBubbleColor(build: Build, score: int8): (c: GColor)
    ensures build == BlackAndWhiteBuild ==> c == White
    ensures build == ColorBuild ==> c != White
  {
    match build
    case BlackAndWhiteBuild => White
    case ColorBuild =>
      if score >= 8 then IslamicGreen
      else if score >= 6 then VividCerulean
      else if score >= 3 then Rajah
      else Red
  }

  /** The label each class is meant to show. */
  function ClassText(v: Visibility): string {
    match v
    case Visible => VisibleText
    case PartlyVisible => PartlyVisibleText
    case BarelyVisible => BarelyVisibleText
    case NotVisible => NotVisibleText
  }

  /** The colour-build colour each class is meant to have. */
  function ClassColor(v: Visibility): GColor {
    match v
    case Visible => IslamicGreen
    case PartlyVisible => VividCerulean
    case BarelyVisible => Rajah
    case NotVisible => Red
  }

  /** The label is the one of the score's class, and of no other class. */
  lemma ScoreTextByClass(score: int8, v: Visibility)
    ensures ScoreText(score) == ClassText(v) <==> InClass(score, v)
  {
    assert NotVisibleText[0] == 'N' && BarelyVisibleText[0] == 'B';
    assert PartlyVisibleText[0] == 'P' && VisibleText[0] == 'V';
  }

  /** The colour-build colour is the one of the score's class, and of no other class. */
  lemma ScoreColorByClass(score: int8, v: Visibility)
    ensures ScoreBubbleColor(ColorBuild, score) == ClassColor(v) <==> InClass(score, v)
  {
  }

  /** Text and colour follow the same thresholds: two scores share a label
      exactly when they share a colour-build colour. */
  lemma TextAndColorAgree(a: int8, b: int8)
    ensures ScoreText(a) == ScoreText(b) <==> ScoreBubbleColor(ColorBuild, a) == ScoreBubbleColor(ColorBuild, b)
  {
    ScoreTextByClass(a, Classify(a));
    ScoreTextByClass(b, Classify(b));
    ScoreTextByClass(a, Classify(b));
    ScoreColorByClass(a, Classify(a));
    ScoreColorByClass(b, Classify(b));
    ScoreColorByClass(a, Classify(b));
  }

  /** The boundary values land in the class above each cut point. */
  lemma BoundaryLabels()
    ensures ScoreText(-1) == NotVisibleText && ScoreText(2) == NotVisibleText
    ensures ScoreText(3) == BarelyVisibleText && ScoreText(5) == BarelyVisibleText
    ensures ScoreText(6) == PartlyVisibleText && ScoreText(7) == PartlyVisibleText
    ensures ScoreText(8) == VisibleText && ScoreText(10) == VisibleText
  {
  }

  /** The number of newline characters in a text. */
  function NewlineCount(text: string): nat {
    if text == [] then 0 else (if text[0] == '\n' then 1 else 0) + NewlineCount(text[1..])
  }

  /** The number of lines a label occupies: one more than its newlines. */
  function LineCountOf(text: string): nat {
    1 + NewlineCount(text)
  }

  lemma {:induction false} NewlineCountConcat(a: string, b: string)
    ensures NewlineCount(a + b) == NewlineCount(a) + NewlineCount(b)
  {
    if a == [] {
      assert a + b == b;
    } else {
      assert (a + b)[1..] == a[1..] + b;
      NewlineCountConcat(a[1..], b);
    }
  }

  lemma {:induction false} NoNewline(text: string)
    requires '\n' !in text
    ensures NewlineCount(text) == 0
  {
    if text != [] {
      assert text[0] in text;
      assert forall c :: c in text[1..] ==> c in text;
      NoNewline(text[1..]);
    }
  }

  /** Two newline-free words joined by one newline take two lines. */
  lemma TwoWords(first: string, second: string)
    requires '\n' !in first && '\n' !in second
    ensures LineCountOf(first + "\n" + second) == 2
  {
    NoNewline(first);
    NoNewline(second);
    NewlineCountConcat(first, "\n");
    NewlineCountConcat(first + "\n", second);
    assert NewlineCount("\n") == 1 by {
      assert "\n"[1..] == [];
    }
  }

  /** Only the "Visible" label is a single line; the other three are two lines. */
  lemma LabelLines(score: int8)
    ensures LineCountOf(ScoreText(score)) == (if score >= 8 then 1 else 2)
  {
    var word := "Visible";
    assert '\n' !in word;
    if score >= 8 {
      NoNewline(word);
    } else if score >= 6 {
      assert "Partly\nVisible" == "Partly" + "\n" + word;
      TwoWords("Partly", word);
    } else if score >= 3 {
      assert "Barely\nVisible" == "Barely" + "\n" + word;
      TwoWords("Barely", word);
    } else {
      assert "Not\nVisible" == "Not" + "\n" + word;
      TwoWords("Not", word);
    }
  }
}
