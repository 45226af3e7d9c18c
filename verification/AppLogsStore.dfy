/// The admin tab's store: the application log lines, refreshed from the
/// in-memory log buffer, and how far the view is scrolled back from the
/// newest line.
module AppLogsStore {
  import RustInts
  import Logger
  import TuiActions

  /// `usize::saturating_sub`.
  function SaturatingSub(a: nat, b: nat): (r: nat)
    ensures a >= b ==> r == a - b
    ensures a < b ==> r == 0
  {
    if a >= b then a - b else 0
  }

  /// `usize::saturating_add`.
  function SaturatingAdd(a: nat, b: nat): (r: nat)
    ensures a + b <= RustInts.UsizeMax ==> r == a + b
    ensures a + b > RustInts.UsizeMax ==> r == RustInts.UsizeMax
  {
    if a + b <= RustInts.UsizeMax then a + b else RustInts.UsizeMax
  }

  /// The offset after scrolling back by `amount` lines: a position past
  /// the oldest line is first brought back to it.
  function ScrolledUp(offset: nat, total: nat, amount: nat): nat {
    SaturatingAdd(if offset >= total then total else offset, amount)
  }

  /// Scrolling back and then forward by the same amount returns to the
  /// offset clamped to the number of lines.
  lemma UpThenDown(offset: nat, total: nat, amount: nat)
    requires total + amount <= RustInts.UsizeMax
    ensures SaturatingSub(ScrolledUp(offset, total, amount), amount) == (if offset >= total then total else offset)
  {
  }

  /// Scrolling forward never goes past the newest line, and stops there.
  lemma DownStopsAtNewest(offset: nat, amount: nat)
    ensures SaturatingSub(offset, amount) <= offset
    ensures amount >= offset ==> SaturatingSub(offset, amount) == 0
  {
  }

  class AppLogsStore {
    var logs: seq<string>
    var scrollOffset: nat
    const logBuffer: Logger.LogBuffer

    /// `new`: no lines yet, scrolled to the newest.
    constructor (logBuffer: Logger.LogBuffer)
      ensures this.logBuffer == logBuffer && logs == [] && scrollOffset == 0
    {
      this.logBuffer := logBuffer;
      logs := [];
      scrollOffset := 0;
    }

    /// `dispatch`: whatever the action, the lines are refreshed from the
    /// buffer and the offset is kept.
    method Dispatch(a: TuiActions.Action)
      modifies this
      ensures logs == Logger.FormatAll(logBuffer.logs)
      ensures scrollOffset == old(scrollOffset)
    {
      RefreshLogs();
    }

    /// `refresh_logs`.
    method RefreshLogs()
      modifies this
      ensures logs == Logger.FormatAll(logBuffer.logs)
      ensures scrollOffset == old(scrollOffset)
    {
      logs := logBuffer.GetLogs();
    }

    /// `scroll_down`: towards the newest line, stopping at it.
    method ScrollDown(amount: nat)
      modifies this
      ensures scrollOffset == SaturatingSub(old(scrollOffset), amount)
      ensures logs == old(logs)
    {
      scrollOffset := SaturatingSub(scrollOffset, amount);
    }

    /// `scroll_up`: towards the oldest line.
    method ScrollUp(amount: nat)
      modifies this
      ensures scrollOffset == ScrolledUp(old(scrollOffset), |logs|, amount)
      ensures logs == old(logs)
    {
      if scrollOffset >= |logs| {
        scrollOffset := |logs|;
      }
      scrollOffset := SaturatingAdd(scrollOffset, amount);
    }

    /// `scroll_to_bottom`.
    method ScrollToBottom()
      modifies this
      ensures scrollOffset == 0 && logs == old(logs)
    {
      scrollOffset := 0;
    }
  }
}
