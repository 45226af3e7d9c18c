/// What the log viewer modal draws from the store's state: the window of
/// lines shown, the scroll indicator, the status line, and a text input
/// with its cursor mark.
module LogViewerModal {
  import opened Wrappers
  import RustInts

  /// `usize::saturating_sub`.
  function SatSub(a: nat, b: nat): (r: nat)
    ensures r == if a >= b then a - b else 0
  {
    if a >= b then a - b else 0
  }

  /// The first and one-past-last line shown out of `total`, in a view
  /// `height` lines high. Following live output shows the newest lines;
  /// otherwise the window ends `offset` lines before the newest. The sum
  /// `height + offset` is a `usize` addition and wraps.
  function LogWindow(total: nat, height: nat, follow: bool, offset: nat): (nat, nat) {
    if follow then (SatSub(total, height), total)
    else (SatSub(total, (height + offset) % (RustInts.UsizeMax + 1)), SatSub(total, offset))
  }

  /// The lines shown: the slice the window selects, or `None` where the
  /// slice would panic because the window's start is past its end.
  function VisibleLines(logs: seq<string>, height: nat, follow: bool, offset: nat): (r: Option<seq<string>>)
    ensures var (s, e) := LogWindow(|logs|, height, follow, offset);
            r.Some? <==> s <= e
  {
    var (s, e) := LogWindow(|logs|, height, follow, offset);
    if s <= e then Some(logs[s..e]) else None
  }

  /// The window lies within the lines and is at most a screenful; following
  /// shows the newest `min(height, total)` lines, and otherwise the window
  /// ends `offset` lines before the newest and is as full as the lines
  /// above it allow.
  lemma WindowShape(total: nat, height: nat, follow: bool, offset: nat)
    requires height + offset <= RustInts.UsizeMax
    ensures var (s, e) := LogWindow(total, height, follow, offset);
            && s <= e <= total
            && e - s <= height
            && (follow ==> e == total && e - s == (if height <= total then height else total))
            && (!follow ==> e == SatSub(total, offset) && e - s == (if height <= e then height else e))
  {
  }

  /// The lines shown are the window's lines, newest last.
  lemma VisibleLinesAreWindow(logs: seq<string>, height: nat, follow: bool, offset: nat)
    requires height + offset <= RustInts.UsizeMax
    ensures var (s, e) := LogWindow(|logs|, height, follow, offset);
            && VisibleLines(logs, height, follow, offset).Some?
            && |VisibleLines(logs, height, follow, offset).value| == e - s
            && forall k :: 0 <= k < e - s ==> VisibleLines(logs, height, follow, offset).value[k] == logs[s + k]
  {
    WindowShape(|logs|, height, follow, offset);
  }

  /// Following live output with every line fitting shows them all.
  lemma FollowShowsAllThatFit(logs: seq<string>, height: nat)
    requires |logs| <= height
    ensures VisibleLines(logs, height, true, 0) == Some(logs)
  {
    assert logs[0..|logs|] == logs;
  }

  /// The "[end/total]" indicator, shown only when the lines do not fit.
  function ScrollIndicator(total: nat, height: nat, end: nat): (r: string)
    ensures r != [] <==> total > height
  {
    if total > height then " [" + RustInts.Decimal(end) + "/" + RustInts.Decimal(total) + "] " else ""
  }

  /// The status line: the error if there is one, otherwise success once
  /// lines have arrived, otherwise ready.
  function StatusText(errorMessage: Option<string>, logs: seq<string>): (r: string)
    ensures errorMessage.Some? ==> r == "⚠ " + errorMessage.value
    ensures errorMessage.None? && logs != [] ==> r == "✓ Success"
    ensures errorMessage.None? && logs == [] ==> r == "Ready"
  {
    match errorMessage
    case Some(e) => "⚠ " + e
    case None => if logs != [] then "✓ Success" else "Ready"
  }

  /// The error wins over everything else in the status line.
  lemma StatusShowsError(e: string, logs: seq<string>)
    ensures StatusText(Some(e), logs)[..2] == "⚠ "
    ensures StatusText(Some(e), logs)[2..] == e
  {
  }

  /// The cursor mark.
  const CursorMark: char := '█'

  /// A focused input's text: the cursor mark drawn at the cursor, which is
  /// first brought within the text.
  function WithCursor(value: string, cursor: nat): (r: string)
    ensures |r| == |value| + 1
  {
    var p := if cursor <= |value| then cursor else |value|;
    value[..p] + [CursorMark] + value[p..]
  }

  /// The drawn text is the value with the mark inserted at the (clamped)
  /// cursor: taking the mark out gives the value back.
  lemma WithCursorSplits(value: string, cursor: nat)
    ensures var p := if cursor <= |value| then cursor else |value|;
            && WithCursor(value, cursor)[p] == CursorMark
            && WithCursor(value, cursor)[..p] + WithCursor(value, cursor)[p + 1..] == value
  {
    var p := if cursor <= |value| then cursor else |value|;
    var r := WithCursor(value, cursor);
    assert r[..p] == value[..p];
    assert r[p + 1..] == value[p..];
  }

  /// What an input box shows: the text with its cursor when focused, the
  /// bare text otherwise.
  function InputText(value: string, focused: bool, cursor: nat): (r: string)
    ensures !focused ==> r == value
    ensures focused ==> |r| == |value| + 1
  {
    if focused then WithCursor(value, cursor) else value
  }
}
