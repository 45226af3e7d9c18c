/// Plain pipe splitting and the `host-port` instance identifiers of agents.
module InstanceIds {
  import opened Wrappers
  import Strings
  import RustInts

  /// `arg_str_to_vec`: split on every '|', with no escaping.
  function ArgStrToVec(s: string): (r: seq<string>)
    ensures |r| == Strings.Count(s, '|') + 1
    ensures forall k :: 0 <= k < |r| ==> Strings.Free(r[k], '|')
    ensures Strings.Join(r, "|") == s
  {
    Strings.SplitCount(s, '|');
    Strings.JoinSplit(s, '|');
    Strings.Split(s, '|')
  }

  /// `get_instance_id`: the host, a dash, then the port in decimal.
  function GetInstanceId(host: string, port: nat): (id: string)
    ensures |id| > |host| + 1 && id[..|host| + 1] == host + "-"
    ensures id[|host| + 1..] == RustInts.Decimal(port)
  {
    host + "-" + RustInts.Decimal(port)
  }

  /// The two ways `split_instance_id` panics.
  datatype Panic = NoPortSegment | BadPort(msg: string)

  /// `split_instance_id`: the first two dash-separated segments, the second read
  /// as a `usize`; any further segments are ignored.
  function SplitInstanceId(id: string): (r: Result<(string, int), Panic>)
    ensures r.Ok? ==> Strings.Free(r.value.0, '-') && 0 <= r.value.1 <= RustInts.UsizeMax
    ensures r.Err? && r.error == NoPortSegment <==> Strings.Free(id, '-')
    ensures !Strings.Free(id, '-') ==>
              var splits := Strings.Split(id, '-');
              && |splits| >= 2
              && (r.Ok? <==> RustInts.ParseUsize(splits[1]).Some?)
              && (r.Ok? ==> r.value == (splits[0], RustInts.ParseUsize(splits[1]).value))
              && (r.Err? ==> r.error == BadPort("Port does not appear to be a valid port number. Got: " + splits[1]))
  {
    var splits := Strings.Split(id, '-');
    Strings.SplitCount(id, '-');
    if Strings.Free(id, '-') then
      assert |splits| == 1 by { Strings.SplitFree(id, '-'); }
      Err(NoPortSegment)
    else
      Strings.CountPositive(id, '-');
      match RustInts.ParseUsize(splits[1])
      case None => Err(BadPort("Port does not appear to be a valid port number. Got: " + splits[1]))
      case Some(p) => Ok((splits[0], p))
  }

  /// Splitting a built identifier recovers the host and the port exactly when
  /// the host contains no dash.
  lemma InstanceIdRoundTrip(host: string, port: nat)
    requires port <= RustInts.UsizeMax
    ensures SplitInstanceId(GetInstanceId(host, port)) == Ok((host, port)) <==> Strings.Free(host, '-')
  {
    var dec := RustInts.Decimal(port);
    RustInts.DecimalDigits(port);
    assert Strings.Free(dec, '-');
    var id := GetInstanceId(host, port);
    assert id == host + ['-'] + dec;
    Strings.SplitAppend(host, dec, '-');
    assert !Strings.Free(id, '-') by { assert id[|host|] == '-'; }
    if Strings.Free(host, '-') {
      Strings.SplitFree(host, '-');
      RustInts.ParseDecimal(port, false, 0, RustInts.UsizeMax);
    } else {
      Strings.SplitCount(host, '-');
      Strings.CountPositive(host, '-');
      var r := SplitInstanceId(id);
      if r.Ok? {
        assert r.value.0 == Strings.Split(host, '-')[0];
        assert r.value.0 != host;
      }
    }
  }
}
