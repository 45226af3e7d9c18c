/// What the admin tab draws from the application-log store: a window of
/// the newest lines, moved back by the scroll offset, inside a bordered
/// box whose title carries a scroll indicator.
module AdminPanel {
  import RustInts

  /// `usize::saturating_sub` (and `u16::saturating_sub` within range).
  function SatSub(a: nat, b: nat): (r: nat)
    ensures r == if a >= b then a - b else 0
  {
    if a >= b then a - b else 0
  }

  /// Lines inside the box: the height less the two borders.
  function InnerHeight(height: nat): (r: nat)
    ensures height >= 2 ==> r == height - 2
    ensures height < 2 ==> r == 0
  {
    SatSub(height, 2)
  }

  /// The first and one-past-last line shown out of `total` in a box
  /// `height` high, scrolled `offset` lines back from the newest. The sum
  /// `inner + offset` is a `usize` addition and wraps.
  function Window(total: nat, height: nat, offset: nat): (nat, nat) {
    var inner := InnerHeight(height);
    var start := if total > inner then SatSub(total, (inner + offset) % (RustInts.UsizeMax + 1)) else 0;
    var low := if inner <= total then inner else total;
    var back := SatSub(total, offset);
    var end := if back >= low then back else low;
    (start, end)
  }

  /// The window lies within the lines. When everything fits it is shown in
  /// full; otherwise the box is always full, ending `offset` lines before
  /// the newest or, scrolled past the oldest, at the first screenful.
  lemma WindowShape(total: nat, height: nat, offset: nat)
    requires InnerHeight(height) + offset <= RustInts.UsizeMax
    ensures var (s, e) := Window(total, height, offset);
            var inner := InnerHeight(height);
            && s <= e <= total
            && (total <= inner ==> s == 0 && e == total)
            && (total > inner ==> e >= inner && e - s == inner)
            && (total > inner && offset <= total - inner ==> e == total - offset)
  {
  }

  /// Scrolled to the newest line, the window is the last screenful.
  lemma NewestAtBottom(total: nat, height: nat)
    requires total > InnerHeight(height) && InnerHeight(height) <= RustInts.UsizeMax
    ensures Window(total, height, 0) == (total - InnerHeight(height), total)
  {
    WindowShape(total, height, 0);
  }

  /// The "[end/total]" indicator, shown only when the lines do not fit.
  function ScrollIndicator(total: nat, height: nat, end: nat): (r: string)
    ensures r != [] <==> total > InnerHeight(height)
  {
    if total > InnerHeight(height) then " [" + RustInts.Decimal(end) + "/" + RustInts.Decimal(total) + "] " else ""
  }

  /// The box title, with the indicator when there is one.
  function Title(indicator: string): (r: string)
    ensures indicator == [] ==> r == " Application Logs "
    ensures indicator != [] ==> r == " Application Logs " + indicator + " "
  {
    if indicator == [] then " Application Logs " else " Application Logs " + indicator + " "
  }

  /// The lines shown: nothing to draw for an empty log, else the window.
  function VisibleLines(logs: seq<string>, height: nat, offset: nat): (r: seq<string>)
    requires InnerHeight(height) + offset <= RustInts.UsizeMax
    ensures |logs| <= InnerHeight(height) ==> r == logs
    ensures |logs| > InnerHeight(height) ==> |r| == InnerHeight(height)
    ensures offset == 0 && r != [] ==> r[|r| - 1] == logs[|logs| - 1]
  {
    WindowShape(|logs|, height, offset);
    var (s, e) := Window(|logs|, height, offset);
    assert |logs| <= InnerHeight(height) ==> logs[s..e] == logs;
    logs[s..e]
  }
}
