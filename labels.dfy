/**
 * Label fitting for one treemap tile: whether the name and the value are shown at all, the font
 * size each one gets (descending from a size derived from the tile width until no ellipsis is
 * needed), the name's one- or two-line arrangement, and the vertical placement from the font's
 * ascent and descent so that the value never overlaps the name.
 *
 * Text width at a font size is `measure(size)(s)`; the canvas measurement of "Hg" at a size is
 * `probe(size)` (`None` when no 2D canvas context is available). Both are supplied by the caller.
 */
module Labels {
  import opened Common
  import opened Dataset
  import opened Text

  const Padding: int := 8
  const TextYOffset: int := 2
  const MinGap: real := 3.0
  const NameLineHeightEm: real := 1.1
  const NameMinFont: int := 9
  const ValueMinFont: int := 9

  /** The top of the name block: the padding plus the small vertical offset. */
  const NameTop: real := (Padding + TextYOffset) as real

  datatype Metrics = Metrics(ascent: real, descent: real)

  /** A canvas measurement: the actual bounding-box ascent and descent of "Hg". */
  type Probe = int -> Option<(RawValue, RawValue)>

  /** `x` when it is a finite positive number, else the fallback. */
  function PositiveOr(x: RawValue, fallback: real): real {
    if x.Num? && x.x > 0.0 then x.x else fallback
  }

  /**
   * `getFontMetrics`: the measured ascent and descent, each replaced by 0.8 (0.2) times the size
   * when the measurement is missing or not positive; a size of zero counts as 12.
   */
  function FontMetrics(size: int, measured: Option<(RawValue, RawValue)>): (m: Metrics)
    ensures size >= 0 ==> m.ascent > 0.0 && m.descent > 0.0
    ensures measured.Some? && measured.value.0.Num? && measured.value.0.x > 0.0 ==> m.ascent == measured.value.0.x
    ensures measured.Some? && measured.value.1.Num? && measured.value.1.x > 0.0 ==> m.descent == measured.value.1.x
    ensures measured.None? ==> m == Metrics(EffectiveSize(size) as real * 0.8, EffectiveSize(size) as real * 0.2)
  {
    var s := EffectiveSize(size) as real;
    if measured.None? then Metrics(s * 0.8, s * 0.2)
    else Metrics(PositiveOr(measured.value.0, s * 0.8), PositiveOr(measured.value.1, s * 0.2))
  }

  /** `Number(fontSizePx) || 12`. */
  function EffectiveSize(size: int): int {
    if size == 0 then 12 else size
  }

  // ---------------------------------------------------------------------------------------------
  // The descending font-size loop

  /**
   * The loop `for (size = start; size >= minSize; size -= 1)`: a size whose attempt is `None` is
   * skipped (`continue`), and the loop stops after the first attempt that needs no ellipsis or
   * after the minimum size. The result is the last attempt made (`last` before this size).
   */
  function Descend<P>(size: int, minSize: int, attempt: int -> Option<P>, cut: P -> bool, last: Option<P>): Option<P>
    decreases size - minSize
  {
    if size < minSize then last
    else
      match attempt(size)
      case None => Descend(size - 1, minSize, attempt, cut, last)
      case Some(p) => if !cut(p) || size == minSize then Some(p) else Descend(size - 1, minSize, attempt, cut, Some(p))
  }

  /** Size `t` was skipped or needed an ellipsis. */
  predicate NoFit<P>(attempt: int -> Option<P>, cut: P -> bool, t: int) {
    attempt(t).None? || cut(attempt(t).value)
  }

  /**
   * What the loop finds: a result without an ellipsis is the attempt at the largest size that
   * needs none; when every size is skipped or needs an ellipsis, the result is the attempt at the
   * smallest size that was not skipped, or nothing new when every size was skipped.
   */
  lemma {:induction false} DescendResult<P>(size: int, minSize: int, attempt: int -> Option<P>, cut: P -> bool, last: Option<P>)
    requires last.None? || cut(last.value)
    ensures var r := Descend(size, minSize, attempt, cut, last);
      && (r.Some? && !cut(r.value) ==>
            exists s :: minSize <= s <= size && attempt(s) == r && forall t :: s < t <= size ==> NoFit(attempt, cut, t))
      && (r.None? || cut(r.value) ==> forall t :: minSize <= t <= size ==> NoFit(attempt, cut, t))
      && (r.Some? && cut(r.value) ==>
            (forall t :: minSize <= t <= size ==> attempt(t).None?)
            || exists s :: minSize <= s <= size && attempt(s) == r && forall t :: minSize <= t < s ==> attempt(t).None?)
      && (r == last || exists s :: minSize <= s <= size && attempt(s) == r)
      && (r.None? <==> last.None? && forall t :: minSize <= t <= size ==> attempt(t).None?)
    decreases size - minSize
  {
    var r := Descend(size, minSize, attempt, cut, last);
    if size >= minSize {
      match attempt(size)
      case None =>
        DescendResult(size - 1, minSize, attempt, cut, last);
        assert NoFit(attempt, cut, size);
      case Some(p) =>
        if !cut(p) || size == minSize {
          assert attempt(size) == r;
        } else {
          DescendResult(size - 1, minSize, attempt, cut, Some(p));
          assert NoFit(attempt, cut, size);
          if forall t :: minSize <= t <= size - 1 ==> attempt(t).None? {
            assert r == Some(p) && attempt(size) == r;
          }
        }
    }
  }

  // ---------------------------------------------------------------------------------------------
  // The name

  /**
   * One name attempt: the font size, the baseline, the line texts, the lines used (`linesUsed || 1`),
   * whether it was ellipsized and the bottom of the name block.
   */
  datatype NamePlan = NamePlan(size: int, baselineY: real, lines: seq<string>, linesUsed: int, ellipsized: bool, blockBottom: real)

  /** The number of lines the height allows at a size: two, one, or none. */
  function NameLinesAllowed(size: int, availableHeight: real, m: Metrics): int {
    var line0 := m.ascent + m.descent;
    if availableHeight >= line0 + size as real * NameLineHeightEm then 2
    else if availableHeight >= line0 then 1
    else 0
  }

  /** The name at one font size: wrapped into two lines when there is room for them, else cut to one. */
  function NameAttempt(size: int, nameText: string, maxTextWidth: real, availableHeight: real, probe: Probe,
                       measure: int -> string -> real): Option<NamePlan>
  {
    var m := FontMetrics(size, probe(size));
    var allowed := NameLinesAllowed(size, availableHeight, m);
    if allowed == 0 then None
    else
      var w := if allowed >= 2 then WrapWords(nameText, maxTextWidth, 2, measure(size))
               else var t := Truncation(nameText, maxTextWidth, false, measure(size)); Wrapped([t.text], 1, t.ellipsized);
      var used := if w.linesUsed == 0 then 1 else w.linesUsed;
      Some(NamePlan(size, NameTop + m.ascent, w.lines, used, w.ellipsized,
                    NameTop + m.ascent + m.descent + (if used >= 2 then size as real * NameLineHeightEm else 0.0)))
  }

  function NameCut(p: NamePlan): bool {
    p.ellipsized
  }

  /** The name loop, from `start` down to the minimum name size. */
  function NameSearch(start: int, nameText: string, maxTextWidth: real, availableHeight: real, probe: Probe,
                      measure: int -> string -> real): Option<NamePlan>
  {
    Descend(start, NameMinFont, (s: int) => NameAttempt(s, nameText, maxTextWidth, availableHeight, probe, measure), NameCut, None)
  }

  /** The body of the name loop at one size, with the DOM text element replaced by its contents. */
  method TryName(size: int, nameText: string, maxTextWidth: real, availableHeight: real, probe: Probe,
                 measure: int -> string -> real) returns (attempt: Option<NamePlan>)
    ensures attempt == NameAttempt(size, nameText, maxTextWidth, availableHeight, probe, measure)
  {
    var labelMetrics := FontMetrics(size, probe(size));
    var line0 := labelMetrics.ascent + labelMetrics.descent;
    var allow1 := availableHeight >= line0;
    var allow2 := availableHeight >= line0 + size as real * NameLineHeightEm;
    var maxNameLines := if allow2 then 2 else if allow1 then 1 else 0;
    if maxNameLines == 0 {
      return None;
    }
    var nameBaselineY := NameTop + labelMetrics.ascent;
    var lines: seq<string>;
    var ellipsized := false;
    var linesUsed := 1;
    if maxNameLines >= 2 {
      var r := WrapWordsMaxLines(nameText, maxTextWidth, 2, measure(size));
      lines := r.lines;
      linesUsed := if r.linesUsed == 0 then 1 else r.linesUsed;
      ellipsized := r.ellipsized;
    } else {
      var t := TruncateOneLine(nameText, maxTextWidth, false, measure(size));
      lines := [t.text];
      ellipsized := t.ellipsized;
      linesUsed := 1;
    }
    var nameBlockBottom := NameTop + line0 + (if linesUsed >= 2 then size as real * NameLineHeightEm else 0.0);
    attempt := Some(NamePlan(size, nameBaselineY, lines, linesUsed, ellipsized, nameBlockBottom));
  }

  /** The name loop: shrink the font until the name needs no ellipsis or the minimum size is reached. */
  method FitName(start: int, nameText: string, maxTextWidth: real, availableHeight: real, probe: Probe,
                 measure: int -> string -> real) returns (plan: Option<NamePlan>)
    ensures plan == NameSearch(start, nameText, maxTextWidth, availableHeight, probe, measure)
  {
    ghost var attemptAt := (s: int) => NameAttempt(s, nameText, maxTextWidth, availableHeight, probe, measure);
    plan := None;
    var labelSize := start;
    while labelSize >= NameMinFont
      invariant Descend(labelSize, NameMinFont, attemptAt, NameCut, plan) == NameSearch(start, nameText, maxTextWidth, availableHeight, probe, measure)
      decreases labelSize
    {
      var attempt := TryName(labelSize, nameText, maxTextWidth, availableHeight, probe, measure);
      if attempt.None? {
        labelSize := labelSize - 1;
        continue;
      }
      plan := attempt;
      if !attempt.value.ellipsized {
        break;
      }
      if labelSize == NameMinFont {
        break;
      }
      labelSize := labelSize - 1;
    }
  }

  // ---------------------------------------------------------------------------------------------
  // The value

  /** One value attempt: the font size, the baseline, the top of the text, its contents and the cut flag. */
  datatype ValuePlan = ValuePlan(size: int, baselineY: real, top: real, text: string, ellipsized: bool)

  /** The value at one font size, bottom-aligned; skipped when its top would be above `minTop`. */
  function ValueAttempt(size: int, valueLabel: string, maxTextWidth: real, valueBottom: real, minTop: real,
                        probe: Probe, measure: int -> string -> real): Option<ValuePlan>
  {
    var m := FontMetrics(size, probe(size));
    var baseline := valueBottom - m.descent;
    var top := baseline - m.ascent;
    if top < minTop then None
    else
      var t := Truncation(valueLabel, maxTextWidth, false, measure(size));
      Some(ValuePlan(size, baseline, top, t.text, t.ellipsized))
  }

  function ValueCut(p: ValuePlan): bool {
    p.ellipsized
  }

  function ValueSearch(start: int, valueLabel: string, maxTextWidth: real, valueBottom: real, minTop: real,
                       probe: Probe, measure: int -> string -> real): Option<ValuePlan>
  {
    Descend(start, ValueMinFont, (s: int) => ValueAttempt(s, valueLabel, maxTextWidth, valueBottom, minTop, probe, measure), ValueCut, None)
  }

  /** The body of the value loop at one size: skip when the top would be above `minTop`, else cut to one line. */
  method TryValue(size: int, valueLabel: string, maxTextWidth: real, valueBottom: real, minTop: real,
                  probe: Probe, measure: int -> string -> real) returns (attempt: Option<ValuePlan>)
    ensures attempt == ValueAttempt(size, valueLabel, maxTextWidth, valueBottom, minTop, probe, measure)
  {
    var valueMetrics := FontMetrics(size, probe(size));
    var valueBaselineY := valueBottom - valueMetrics.descent;
    var valueTop := valueBaselineY - valueMetrics.ascent;
    if valueTop < minTop {
      return None;
    }
    var t := TruncateOneLine(valueLabel, maxTextWidth, false, measure(size));
    attempt := Some(ValuePlan(size, valueBaselineY, valueTop, t.text, t.ellipsized));
  }

  /** The value loop. */
  method FitValue(start: int, valueLabel: string, maxTextWidth: real, valueBottom: real, minTop: real,
                  probe: Probe, measure: int -> string -> real) returns (plan: Option<ValuePlan>)
    ensures plan == ValueSearch(start, valueLabel, maxTextWidth, valueBottom, minTop, probe, measure)
  {
    ghost var attemptAt := (s: int) => ValueAttempt(s, valueLabel, maxTextWidth, valueBottom, minTop, probe, measure);
    plan := None;
    var valueSize := start;
    while valueSize >= ValueMinFont
      invariant Descend(valueSize, ValueMinFont, attemptAt, ValueCut, plan) == ValueSearch(start, valueLabel, maxTextWidth, valueBottom, minTop, probe, measure)
      decreases valueSize
    {
      var attempt := TryValue(valueSize, valueLabel, maxTextWidth, valueBottom, minTop, probe, measure);
      if attempt.None? {
        valueSize := valueSize - 1;
        continue;
      }
      plan := attempt;
      if !attempt.value.ellipsized {
        break;
      }
      if valueSize == ValueMinFont {
        break;
      }
      valueSize := valueSize - 1;
    }
  }

  // ---------------------------------------------------------------------------------------------
  // One tile

  datatype TilePlan = TilePlan(name: Option<NamePlan>, value: Option<ValuePlan>)

  /** `Math.floor(Math.max(11, Math.min(22, width / 9)))`. */
  function NameStart(width: int): int {
    Clamp(width / 9, 11, 22)
  }

  /** `Math.floor(Math.max(11, Math.min(20, width / 11)))`. */
  function ValueStart(width: int): int {
    Clamp(width / 11, 11, 20)
  }

  /** The integer start sizes are the floors of the clamped real quotients. */
  lemma StartSizesAreFloors(width: int)
    ensures var q := width as real / 9.0;
      var c := if q < 11.0 then 11.0 else if q > 22.0 then 22.0 else q;
      NameStart(width) as real <= c < NameStart(width) as real + 1.0
    ensures var q := width as real / 11.0;
      var c := if q < 11.0 then 11.0 else if q > 20.0 then 20.0 else q;
      ValueStart(width) as real <= c < ValueStart(width) as real + 1.0
  {
    var d9, d11 := width / 9, width / 11;
    assert width as real == 9.0 * d9 as real + (width % 9) as real;
    assert width as real == 11.0 * d11 as real + (width % 11) as real;
  }

  /** The width text may use: the tile width without the padding on both sides, never negative. */
  function MaxTextWidth(width: int): int {
    Max(0, width - 2 * Padding)
  }

  /**
   * What the per-tile step of `renderLayout` shows in a `width` x `height` tile. Nothing is drawn
   * in a tile narrower than 28, lower than 22 or with less than 10 pixels of text width; a name
   * needs 46 x 28 and a value a width of 54.
   */
  function TilePlanOf(width: int, height: int, nameText: string, valueLabel: string, probe: Probe,
                      measure: int -> string -> real): (p: TilePlan)
    ensures MaxTextWidth(width) < 10 || width < 28 || height < 22 ==> p == TilePlan(None, None)
    ensures p.name.Some? ==> width >= 46 && height >= 28
    ensures p.value.Some? ==> width >= 54 && height >= 22
  {
    var maxTextWidth := MaxTextWidth(width);
    if maxTextWidth < 10 || width < 28 || height < 22 then TilePlan(None, None)
    else
      var name := if width >= 46 && height >= 28
                  then NameSearch(NameStart(width), nameText, maxTextWidth as real, (height - Padding) as real - NameTop, probe, measure)
                  else None;
      if width < 54 then TilePlan(name, None)
      else
        var minTop := if name.Some? then name.value.blockBottom + MinGap else NameTop;
        TilePlan(name, ValueSearch(ValueStart(width), valueLabel, maxTextWidth as real, (height - Padding) as real, minTop, probe, measure))
  }

  /** The per-tile step of `renderLayout`: the visibility thresholds, the name loop, then the value loop. */
  method FitTile(width: int, height: int, nameText: string, valueLabel: string, probe: Probe,
                 measure: int -> string -> real) returns (plan: TilePlan)
    ensures plan == TilePlanOf(width, height, nameText, valueLabel, probe, measure)
  {
    var maxTextWidth := MaxTextWidth(width);
    var valueStart := ValueStart(width);
    if maxTextWidth < 10 || width < 28 || height < 22 {
      return TilePlan(None, None);
    }
    var name := FitTileName(width, height, nameText, valueLabel, probe, measure);
    TileParts(width, height, nameText, valueLabel, probe, measure);
    var valueBottom := (height - Padding) as real;
    var minTop := if name.Some? then name.value.blockBottom + MinGap else NameTop;
    var showValue := width >= 54;
    if !showValue {
      return TilePlan(name, None);
    }
    var value := FitValue(valueStart, valueLabel, maxTextWidth as real, valueBottom, minTop, probe, measure);
    plan := TilePlan(name, value);
  }

  /** The name part of the per-tile step: the name loop runs only in a tile of at least 46 x 28. */
  method FitTileName(width: int, height: int, nameText: string, valueLabel: string, probe: Probe,
                     measure: int -> string -> real) returns (name: Option<NamePlan>)
    requires !(MaxTextWidth(width) < 10 || width < 28 || height < 22)
    ensures name == TilePlanOf(width, height, nameText, valueLabel, probe, measure).name
  {
    TileParts(width, height, nameText, valueLabel, probe, measure);
    var availableNameHeight := (height - Padding) as real - NameTop;
    var showName := width >= 46 && height >= 28;
    name := None;
    if showName {
      name := FitName(NameStart(width), nameText, MaxTextWidth(width) as real, availableNameHeight, probe, measure);
    }
  }

  // ---------------------------------------------------------------------------------------------
  // What a tile plan promises

  /** A line that is empty, the bare ellipsis, or fits the width at its font size. */
  predicate LineFits(s: string, maxWidth: real, measure: string -> real) {
    s == "" || s == Ellipsis || measure(s) <= maxWidth
  }

  /** A line shown without an ellipsis: empty (no text at all) or within the width. */
  predicate UncutFits(s: string, maxWidth: real, measure: string -> real) {
    s == "" || measure(s) <= maxWidth
  }

  /** The text of a one-line cut is empty, the bare ellipsis, or fits. */
  lemma TruncationFits(text: string, maxWidth: real, measure: string -> real)
    ensures LineFits(Truncation(text, maxWidth, false, measure).text, maxWidth, measure)
  {
    TruncationShape(text, maxWidth, false, measure);
  }

  /**
   * A name attempt sits inside the space it was given: its lines fit the width (or are the bare
   * ellipsis), it uses one or two lines, and its block ends no lower than the available height
   * allows; two lines are used only where the height allows two.
   */
  lemma NameAttemptFits(size: int, nameText: string, maxTextWidth: real, availableHeight: real, probe: Probe,
                        measure: int -> string -> real)
    requires size >= 0
    ensures var a := NameAttempt(size, nameText, maxTextWidth, availableHeight, probe, measure);
      a.Some? ==>
        && a.value.size == size
        && 1 <= a.value.linesUsed <= 2
        && |a.value.lines| <= 2
        && (forall j :: 0 <= j < |a.value.lines| ==> LineFits(a.value.lines[j], maxTextWidth, measure(size)))
        && (!a.value.ellipsized ==> forall j :: 0 <= j < |a.value.lines| ==> UncutFits(a.value.lines[j], maxTextWidth, measure(size)))
        && NameTop < a.value.baselineY < a.value.blockBottom <= NameTop + availableHeight
        && (a.value.linesUsed == 2 ==> NameLinesAllowed(size, availableHeight, FontMetrics(size, probe(size))) == 2)
  {
    var m := FontMetrics(size, probe(size));
    var allowed := NameLinesAllowed(size, availableHeight, m);
    if allowed >= 2 {
      WrapLines(nameText, maxTextWidth, 2, measure(size));
    } else if allowed == 1 {
      TruncationFits(nameText, maxTextWidth, measure(size));
      TruncationShape(nameText, maxTextWidth, false, measure(size));
    }
  }

  /** A value attempt is bottom-aligned inside the tile, below `minTop`, and its text fits. */
  lemma ValueAttemptFits(size: int, valueLabel: string, maxTextWidth: real, valueBottom: real, minTop: real,
                         probe: Probe, measure: int -> string -> real)
    requires size >= 0
    ensures var a := ValueAttempt(size, valueLabel, maxTextWidth, valueBottom, minTop, probe, measure);
      a.Some? ==>
        && a.value.size == size
        && minTop <= a.value.top < a.value.baselineY < valueBottom
        && LineFits(a.value.text, maxTextWidth, measure(size))
        && (!a.value.ellipsized ==> UncutFits(a.value.text, maxTextWidth, measure(size)))
  {
    TruncationFits(valueLabel, maxTextWidth, measure(size));
    TruncationShape(valueLabel, maxTextWidth, false, measure(size));
  }

  /** The name a search settles on has a size in range and the properties of a single attempt. */
  lemma NameSearchFits(start: int, nameText: string, maxTextWidth: real, availableHeight: real, probe: Probe,
                       measure: int -> string -> real)
    ensures var r := NameSearch(start, nameText, maxTextWidth, availableHeight, probe, measure);
      r.Some? ==>
        && NameMinFont <= r.value.size <= start
        && r == NameAttempt(r.value.size, nameText, maxTextWidth, availableHeight, probe, measure)
        && 1 <= r.value.linesUsed <= 2
        && (forall j :: 0 <= j < |r.value.lines| ==> LineFits(r.value.lines[j], maxTextWidth, measure(r.value.size)))
        && (!r.value.ellipsized ==> forall j :: 0 <= j < |r.value.lines| ==> UncutFits(r.value.lines[j], maxTextWidth, measure(r.value.size)))
        && NameTop < r.value.baselineY < r.value.blockBottom <= NameTop + availableHeight
  {
    var r := NameSearch(start, nameText, maxTextWidth, availableHeight, probe, measure);
    var attemptAt := (s: int) => NameAttempt(s, nameText, maxTextWidth, availableHeight, probe, measure);
    DescendResult(start, NameMinFont, attemptAt, NameCut, None);
    if r.Some? {
      var s :| NameMinFont <= s <= start && attemptAt(s) == r;
      NameAttemptFits(s, nameText, maxTextWidth, availableHeight, probe, measure);
    }
  }

  /** The value a search settles on has a size in range and the properties of a single attempt. */
  lemma ValueSearchFits(start: int, valueLabel: string, maxTextWidth: real, valueBottom: real, minTop: real,
                        probe: Probe, measure: int -> string -> real)
    ensures var r := ValueSearch(start, valueLabel, maxTextWidth, valueBottom, minTop, probe, measure);
      r.Some? ==>
        && ValueMinFont <= r.value.size <= start
        && r == ValueAttempt(r.value.size, valueLabel, maxTextWidth, valueBottom, minTop, probe, measure)
        && minTop <= r.value.top < r.value.baselineY < valueBottom
        && LineFits(r.value.text, maxTextWidth, measure(r.value.size))
        && (!r.value.ellipsized ==> UncutFits(r.value.text, maxTextWidth, measure(r.value.size)))
  {
    var r := ValueSearch(start, valueLabel, maxTextWidth, valueBottom, minTop, probe, measure);
    var attemptAt := (s: int) => ValueAttempt(s, valueLabel, maxTextWidth, valueBottom, minTop, probe, measure);
    DescendResult(start, ValueMinFont, attemptAt, ValueCut, None);
    if r.Some? {
      var s :| ValueMinFont <= s <= start && attemptAt(s) == r;
      ValueAttemptFits(s, valueLabel, maxTextWidth, valueBottom, minTop, probe, measure);
    }
  }

  /** A tile that shows text: the name search when the tile is large enough, then the value search below it. */
  lemma TileParts(width: int, height: int, nameText: string, valueLabel: string, probe: Probe,
                  measure: int -> string -> real)
    requires !(MaxTextWidth(width) < 10 || width < 28 || height < 22)
    ensures var p := TilePlanOf(width, height, nameText, valueLabel, probe, measure);
      && p.name == (if width >= 46 && height >= 28
                    then NameSearch(NameStart(width), nameText, MaxTextWidth(width) as real, (height - Padding) as real - NameTop, probe, measure)
                    else None)
      && p.value == (if width < 54 then None
                     else ValueSearch(ValueStart(width), valueLabel, MaxTextWidth(width) as real, (height - Padding) as real,
                                      if p.name.Some? then p.name.value.blockBottom + MinGap else NameTop, probe, measure))
  {
  }

  /** The name half of `TilePlacement`. */
  lemma NamePlacement(width: int, height: int, nameText: string, valueLabel: string, probe: Probe,
                      measure: int -> string -> real)
    ensures var p := TilePlanOf(width, height, nameText, valueLabel, probe, measure);
      p.name.Some? ==> NameTop < p.name.value.baselineY < p.name.value.blockBottom <= (height - Padding) as real
  {
    if !(MaxTextWidth(width) < 10 || width < 28 || height < 22) {
      TileParts(width, height, nameText, valueLabel, probe, measure);
      if width >= 46 && height >= 28 {
        NameSearchFits(NameStart(width), nameText, MaxTextWidth(width) as real, (height - Padding) as real - NameTop, probe, measure);
      }
    }
  }

  /** The value half of `TilePlacement`. */
  lemma ValuePlacement(width: int, height: int, nameText: string, valueLabel: string, probe: Probe,
                       measure: int -> string -> real)
    ensures var p := TilePlanOf(width, height, nameText, valueLabel, probe, measure);
      p.value.Some? ==>
        && (p.name.Some? ==> p.value.value.top >= p.name.value.blockBottom + MinGap)
        && (p.name.None? ==> p.value.value.top >= NameTop)
        && p.value.value.baselineY < (height - Padding) as real
  {
    if !(MaxTextWidth(width) < 10 || width < 28 || height < 22) {
      TileParts(width, height, nameText, valueLabel, probe, measure);
      var p := TilePlanOf(width, height, nameText, valueLabel, probe, measure);
      if width >= 54 {
        var minTop := if p.name.Some? then p.name.value.blockBottom + MinGap else NameTop;
        ValueSearchFits(ValueStart(width), valueLabel, MaxTextWidth(width) as real, (height - Padding) as real, minTop, probe, measure);
      }
    }
  }

  /**
   * The vertical placement of a tile's text: the name block ends above the bottom padding; a shown
   * value starts at least 3 pixels below the name block, or below the top padding when there is
   * no name, and its baseline is above the bottom padding.
   */
  lemma TilePlacement(width: int, height: int, nameText: string, valueLabel: string, probe: Probe,
                      measure: int -> string -> real)
    ensures var p := TilePlanOf(width, height, nameText, valueLabel, probe, measure);
      && (p.name.Some? ==> NameTop < p.name.value.baselineY < p.name.value.blockBottom <= (height - Padding) as real)
      && (p.value.Some? && p.name.Some? ==> p.value.value.top >= p.name.value.blockBottom + MinGap)
      && (p.value.Some? && p.name.None? ==> p.value.value.top >= NameTop)
      && (p.value.Some? ==> p.value.value.baselineY < (height - Padding) as real)
  {
    NamePlacement(width, height, nameText, valueLabel, probe, measure);
    ValuePlacement(width, height, nameText, valueLabel, probe, measure);
  }

  /**
   * The font-size search of a tile: each shown label has a size between its minimum (9) and its
   * start size; a name without an ellipsis has the largest size at which the name needs none, and
   * an ellipsized name means no size from the start down to 9 avoided the ellipsis (it then has
   * the smallest size that had room); there is no name only when no size had room for one line.
   */
  lemma TileNameSize(width: int, height: int, nameText: string, valueLabel: string, probe: Probe,
                     measure: int -> string -> real)
    requires MaxTextWidth(width) >= 10 && width >= 46 && height >= 28
    ensures var p := TilePlanOf(width, height, nameText, valueLabel, probe, measure);
      var avail := (height - Padding) as real - NameTop;
      var attemptAt := (s: int) => NameAttempt(s, nameText, MaxTextWidth(width) as real, avail, probe, measure);
      && (p.name.Some? ==> NameMinFont <= p.name.value.size <= NameStart(width) && attemptAt(p.name.value.size) == p.name)
      && (p.name.Some? && !p.name.value.ellipsized ==>
            forall t :: p.name.value.size < t <= NameStart(width) ==> NoFit(attemptAt, NameCut, t))
      && (p.name.Some? && p.name.value.ellipsized ==>
            (forall t :: NameMinFont <= t <= NameStart(width) ==> NoFit(attemptAt, NameCut, t))
            && forall t :: NameMinFont <= t < p.name.value.size ==> attemptAt(t).None?)
      && (p.name.None? <==> forall t :: NameMinFont <= t <= NameStart(width) ==> attemptAt(t).None?)
  {
    var avail := (height - Padding) as real - NameTop;
    var maxTextWidth := MaxTextWidth(width) as real;
    var attemptAt := (s: int) => NameAttempt(s, nameText, maxTextWidth, avail, probe, measure);
    var r := NameSearch(NameStart(width), nameText, maxTextWidth, avail, probe, measure);
    DescendResult(NameStart(width), NameMinFont, attemptAt, NameCut, None);
    NameSearchFits(NameStart(width), nameText, maxTextWidth, avail, probe, measure);
    if r.Some? {
      var s :| NameMinFont <= s <= NameStart(width) && attemptAt(s) == r;
      NameAttemptFits(s, nameText, maxTextWidth, avail, probe, measure);
    }
  }

  /**
   * The value's font-size search: a value without an ellipsis has the largest size at which it
   * needs none among the sizes whose top stays below `minTop`; an ellipsized one means none did.
   */
  lemma ValueSize(start: int, valueLabel: string, maxTextWidth: real, valueBottom: real, minTop: real,
                  probe: Probe, measure: int -> string -> real)
    ensures var r := ValueSearch(start, valueLabel, maxTextWidth, valueBottom, minTop, probe, measure);
      var attemptAt := (s: int) => ValueAttempt(s, valueLabel, maxTextWidth, valueBottom, minTop, probe, measure);
      && (r.Some? && !r.value.ellipsized ==>
            forall t :: r.value.size < t <= start ==> NoFit(attemptAt, ValueCut, t))
      && (r.Some? && r.value.ellipsized ==> forall t :: ValueMinFont <= t <= start ==> NoFit(attemptAt, ValueCut, t))
      && (r.None? <==> forall t :: ValueMinFont <= t <= start ==> attemptAt(t).None?)
  {
    var r := ValueSearch(start, valueLabel, maxTextWidth, valueBottom, minTop, probe, measure);
    var attemptAt := (s: int) => ValueAttempt(s, valueLabel, maxTextWidth, valueBottom, minTop, probe, measure);
    DescendResult(start, ValueMinFont, attemptAt, ValueCut, None);
    if r.Some? {
      var s :| ValueMinFont <= s <= start && attemptAt(s) == r;
      ValueAttemptFits(s, valueLabel, maxTextWidth, valueBottom, minTop, probe, measure);
    }
  }

  /** The name half of `TileTextFits`. */
  lemma NameLinesFit(width: int, height: int, nameText: string, valueLabel: string, probe: Probe,
                     measure: int -> string -> real)
    ensures var p := TilePlanOf(width, height, nameText, valueLabel, probe, measure);
      p.name.Some? ==>
        && (forall j :: 0 <= j < |p.name.value.lines| ==>
              LineFits(p.name.value.lines[j], MaxTextWidth(width) as real, measure(p.name.value.size)))
        && (!p.name.value.ellipsized ==> forall j :: 0 <= j < |p.name.value.lines| ==>
              UncutFits(p.name.value.lines[j], MaxTextWidth(width) as real, measure(p.name.value.size)))
  {
    if !(MaxTextWidth(width) < 10 || width < 28 || height < 22) {
      TileParts(width, height, nameText, valueLabel, probe, measure);
      if width >= 46 && height >= 28 {
        NameSearchFits(NameStart(width), nameText, MaxTextWidth(width) as real, (height - Padding) as real - NameTop, probe, measure);
      }
    }
  }

  /** The value half of `TileTextFits`. */
  lemma ValueTextFits(width: int, height: int, nameText: string, valueLabel: string, probe: Probe,
                      measure: int -> string -> real)
    ensures var p := TilePlanOf(width, height, nameText, valueLabel, probe, measure);
      p.value.Some? ==>
        && LineFits(p.value.value.text, MaxTextWidth(width) as real, measure(p.value.value.size))
        && (!p.value.value.ellipsized ==> UncutFits(p.value.value.text, MaxTextWidth(width) as real, measure(p.value.value.size)))
  {
    if !(MaxTextWidth(width) < 10 || width < 28 || height < 22) {
      TileParts(width, height, nameText, valueLabel, probe, measure);
      var p := TilePlanOf(width, height, nameText, valueLabel, probe, measure);
      if width >= 54 {
        var minTop := if p.name.Some? then p.name.value.blockBottom + MinGap else NameTop;
        ValueSearchFits(ValueStart(width), valueLabel, MaxTextWidth(width) as real, (height - Padding) as real, minTop, probe, measure);
      }
    }
  }

  /**
   * Text never overflows a tile horizontally: every shown name line and the shown value fit the
   * text width at their own font size, or are the bare ellipsis, or are empty; a name or value shown
   * without an ellipsis is empty or fits, whatever its characters.
   */
  lemma TileTextFits(width: int, height: int, nameText: string, valueLabel: string, probe: Probe,
                     measure: int -> string -> real)
    ensures var p := TilePlanOf(width, height, nameText, valueLabel, probe, measure);
      && (p.name.Some? ==> forall j :: 0 <= j < |p.name.value.lines| ==>
            LineFits(p.name.value.lines[j], MaxTextWidth(width) as real, measure(p.name.value.size)))
      && (p.name.Some? && !p.name.value.ellipsized ==> forall j :: 0 <= j < |p.name.value.lines| ==>
            UncutFits(p.name.value.lines[j], MaxTextWidth(width) as real, measure(p.name.value.size)))
      && (p.value.Some? ==> LineFits(p.value.value.text, MaxTextWidth(width) as real, measure(p.value.value.size)))
      && (p.value.Some? && !p.value.value.ellipsized ==>
            UncutFits(p.value.value.text, MaxTextWidth(width) as real, measure(p.value.value.size)))
  {
    NameLinesFit(width, height, nameText, valueLabel, probe, measure);
    ValueTextFits(width, height, nameText, valueLabel, probe, measure);
  }
}
