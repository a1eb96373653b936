/** Field trials on the command line: key/value/key/value/. */
module FieldTrials {
  import opened Wire
  import opened SdpFraming

  datatype Trial = Trial(key: string, value: string)

  const TRIAL_PREFIX := "FieldTrial:"

  // Printing.

  function Join(parts: seq<string>): string {
    if parts == [] then "" else if |parts| == 1 then parts[0] else parts[0] + "/" + Join(parts[1..])
  }

  /** The trials among the configuration entries. */
  function Selected(config: seq<Trial>): seq<Trial> {
    if config == [] then []
    else
      var last := config[|config| - 1];
      Selected(config[..|config| - 1])
      + if TRIAL_PREFIX <= last.key then [Trial(last.key[|TRIAL_PREFIX|..], last.value)] else []
  }

  function Printed(ts: seq<Trial>): string {
    if ts == [] then "" else ts[0].key + "/" + ts[0].value + "/" + Printed(ts[1..])
  }

  function Parts(ts: seq<Trial>): seq<string> {
    seq(|ts|, i requires 0 <= i < |ts| => ts[i].key + "/" + ts[i].value)
  }

  lemma {:induction false} JoinedIsPrinted(ts: seq<Trial>)
    requires ts != []
    ensures Join(Parts(ts)) + "/" == Printed(ts)
  {
    if |ts| == 1 {
      assert Printed(ts[1..]) == "";
    } else {
      JoinedIsPrinted(ts[1..]);
      assert Parts(ts)[1..] == Parts(ts[1..]);
    }
  }

  /** The configuration is a map; it is given here in the order in which it happens to be visited. */
  method FieldTrialArgument(config: seq<Trial>) returns (arg: string)
    ensures arg == Printed(Selected(config))
  {
    var fieldTrials: seq<string> := [];
    for i := 0 to |config|
      invariant fieldTrials == Parts(Selected(config[..i]))
    {
      assert config[..i + 1][..i] == config[..i];
      if TRIAL_PREFIX <= config[i].key {
        var fieldTrialKey := config[i].key[|TRIAL_PREFIX|..];
        fieldTrials := fieldTrials + [fieldTrialKey + "/" + config[i].value];
      }
    }
    assert config[..|config|] == config;
    if |fieldTrials| > 0 {
      JoinedIsPrinted(Selected(config));
      arg := Join(fieldTrials) + "/";
    } else {
      arg := "";
    }
  }

  // Parsing.

  /** The trial that starts at a position, and where the next one starts. */
  function One(s: string, pos: nat): (r: Option<(Trial, nat)>)
    ensures r.Some? ==> pos < r.value.1 <= |s|
  {
    var i := Find(s, '/', pos);
    if i.None? then None
    else
      var j := Find(s, '/', i.value + 1);
      if j.None? then None else Some((Trial(s[pos..i.value], s[i.value + 1..j.value]), j.value + 1))
  }

  function ParsedFrom(s: string, pos: nat): seq<Trial>
    decreases |s| - pos
  {
    if pos >= |s| || One(s, pos).None? then []
    else [One(s, pos).value.0] + ParsedFrom(s, One(s, pos).value.1)
  }

  /** Later values replace earlier ones; the empty key is dropped. */
  function Inserted(m: map<string, string>, ts: seq<Trial>): map<string, string>
    decreases |ts|
  {
    if ts == [] then m
    else Inserted(if ts[0].key != "" then m[ts[0].key := ts[0].value] else m, ts[1..])
  }

  lemma InsertedFirst(m: map<string, string>, t: Trial, rest: seq<Trial>)
    ensures Inserted(m, [t] + rest) == Inserted(if t.key != "" then m[t.key := t.value] else m, rest)
  {
    assert ([t] + rest)[1..] == rest;
  }

  /** The trials when parsing has come to a position. */
  function Finished(m: map<string, string>, s: string, pos: nat): map<string, string> {
    Inserted(m, ParsedFrom(s, pos))
  }

  method ParseFieldTrials(s: string) returns (trials: map<string, string>)
    ensures trials == Inserted(map[], ParsedFrom(s, 0))
  {
    hide Find, Finished, ParsedFrom, Inserted;
    trials := map[];
    var pos := 0;
    while pos < |s|
      invariant Finished(trials, s, pos) == Finished(map[], s, 0)
      decreases |s| - pos
    {
      var separator := Find(s, '/', pos);
      if separator.None? {
        NoMore(trials, s, pos);
        break;
      }
      var key := s[pos..separator.value];
      var start := separator.value + 1;
      var end := Find(s, '/', start);
      if end.None? {
        NoMore(trials, s, pos);
        break;
      }
      var value := s[start..end.value];
      OneMore(trials, s, pos, separator.value, end.value);
      pos := end.value + 1;
      if key != "" {
        trials := trials[key := value];
      }
    }
    AtEnd(trials, s, pos);
    AllFinished(s);
  }

  lemma AtEnd(m: map<string, string>, s: string, pos: nat)
    ensures pos >= |s| ==> Finished(m, s, pos) == m
  {}

  lemma AllFinished(s: string)
    ensures Finished(map[], s, 0) == Inserted(map[], ParsedFrom(s, 0))
  {}

  lemma NoMore(m: map<string, string>, s: string, pos: nat)
    requires Find(s, '/', pos).None? || Find(s, '/', Find(s, '/', pos).value + 1).None?
    ensures Finished(m, s, pos) == m && ParsedFrom(s, pos) == []
  {
    hide Find;
  }

  lemma OneMore(m: map<string, string>, s: string, pos: nat, i: nat, j: nat)
    requires pos < |s| && Find(s, '/', pos) == Some(i) && Find(s, '/', i + 1) == Some(j)
    ensures var key, value := s[pos..i], s[i + 1..j];
      Finished(m, s, pos) == Finished(if key != "" then m[key := value] else m, s, j + 1)
  {
    hide Find, Inserted;
    InsertedFirst(m, Trial(s[pos..i], s[i + 1..j]), ParsedFrom(s, j + 1));
  }

  // The round trip.

  predicate SlashFree(ts: seq<Trial>) {
    forall i :: 0 <= i < |ts| ==> '/' !in ts[i].key && '/' !in ts[i].value
  }

  lemma FieldEnds(before: string, field: string, after: string)
    requires '/' !in field
    ensures Find(before + field + "/" + after, '/', |before|) == Some(|before| + |field|)
  {
    var s := before + field + "/" + after;
    forall i | |before| <= i < |before| + |field| ensures s[i] != '/' {
      assert s[i] == field[i - |before|];
    }
    FoundAt(s, '/', |before|, |before| + |field|);
  }

  lemma OneAt(before: string, t: Trial, rest: string, s: string, next: string)
    requires '/' !in t.key && '/' !in t.value
    requires next == before + t.key + "/" + t.value + "/" && s == next + rest
    ensures One(s, |before|) == Some((t, |next|))
  {
    var i := |before| + |t.key|;
    assert s == before + t.key + "/" + (t.value + "/" + rest);
    FieldEnds(before, t.key, t.value + "/" + rest);
    assert s == (before + t.key + "/") + t.value + "/" + rest;
    FieldEnds(before + t.key + "/", t.value, rest);
    hide Find;
    assert s[|before|..i] == t.key;
    assert s[i + 1..i + 1 + |t.value|] == t.value;
  }

  lemma {:induction false} ParsedIsPrinted(before: string, ts: seq<Trial>)
    requires SlashFree(ts)
    ensures ParsedFrom(before + Printed(ts), |before|) == ts
    decreases |ts|
  {
    if ts == [] {
      assert |before + Printed(ts)| == |before|;
    } else {
      var t, rest := ts[0], Printed(ts[1..]);
      var next := before + t.key + "/" + t.value + "/";
      assert before + Printed(ts) == next + rest;
      OneAt(before, t, rest, next + rest, next);
      ParsedIsPrinted(next, ts[1..]);
      hide One;
    }
  }

  lemma OneSlashFree(s: string, pos: nat)
    requires One(s, pos).Some?
    ensures var t := One(s, pos).value.0; '/' !in t.key && '/' !in t.value
  {}

  lemma {:induction false} ParsedSlashFree(s: string, pos: nat)
    ensures SlashFree(ParsedFrom(s, pos))
    decreases |s| - pos
  {
    hide One;
    if pos < |s| && One(s, pos).Some? {
      OneSlashFree(s, pos);
      ParsedSlashFree(s, One(s, pos).value.1);
    }
  }

  /** No other trials are read back. */
  lemma PrintedBackIff(ts: seq<Trial>)
    ensures ParsedFrom(Printed(ts), 0) == ts <==> SlashFree(ts)
  {
    ParsedSlashFree(Printed(ts), 0);
    if SlashFree(ts) {
      hide ParsedFrom;
      assert "" + Printed(ts) == Printed(ts);
      ParsedIsPrinted("", ts);
    }
  }

  /** ts lists the entries of m, each once, in some order. */
  ghost predicate Lists(ts: seq<Trial>, m: map<string, string>) {
    && (forall i :: 0 <= i < |ts| ==> ts[i].key in m && m[ts[i].key] == ts[i].value)
    && (forall i, j :: 0 <= i < j < |ts| ==> ts[i].key != ts[j].key)
    && (forall k :: k in m ==> exists i :: 0 <= i < |ts| && ts[i].key == k)
  }

  lemma {:induction false} InsertedIs(m: map<string, string>, ts: seq<Trial>, k: string)
    requires forall i, j :: 0 <= i < j < |ts| ==> ts[i].key != ts[j].key
    ensures k in Inserted(m, ts) <==> k in m || (k != "" && exists i :: 0 <= i < |ts| && ts[i].key == k)
    ensures forall i :: 0 <= i < |ts| && ts[i].key == k != "" ==>
      k in Inserted(m, ts) && Inserted(m, ts)[k] == ts[i].value
    ensures k in m && (forall i :: 0 <= i < |ts| ==> ts[i].key != k) ==> Inserted(m, ts)[k] == m[k]
    decreases |ts|
  {
    if ts != [] {
      var m' := if ts[0].key != "" then m[ts[0].key := ts[0].value] else m;
      InsertedIs(m', ts[1..], k);
    }
  }

  lemma InsertedAt(m: map<string, string>, ts: seq<Trial>, k: string)
    requires Lists(ts, m)
    ensures k in Inserted(map[], ts) <==> k in m && k != ""
    ensures k in Inserted(map[], ts) ==> Inserted(map[], ts)[k] == m[k]
  {
    InsertedIs(map[], ts, k);
    hide Inserted;
    if k in m {
      var i :| 0 <= i < |ts| && ts[i].key == k;
    }
  }

  lemma InsertedAll(m: map<string, string>, ts: seq<Trial>)
    requires Lists(ts, m)
    ensures Inserted(map[], ts) == m - {""}
  {
    hide Inserted, Lists;
    forall k: string
      ensures k in Inserted(map[], ts) <==> k in m && k != ""
      ensures k in Inserted(map[], ts) ==> Inserted(map[], ts)[k] == m[k]
    {
      InsertedAt(m, ts, k);
    }
  }

  /** Whatever the order in which the map of trials is visited, parsing the argument gives back the
      map, without the empty key. */
  lemma TrialsDelivered(m: map<string, string>, ts: seq<Trial>)
    requires Lists(ts, m) && SlashFree(ts)
    ensures Inserted(map[], ParsedFrom(Printed(ts), 0)) == m - {""}
  {
    hide ParsedFrom, Inserted, Printed, SlashFree, Lists;
    assert "" + Printed(ts) == Printed(ts);
    ParsedIsPrinted("", ts);
    InsertedAll(m, ts);
  }

  /** The trials are the entries with the prefix, without it. */
  lemma {:induction false} SelectedAre(config: seq<Trial>, t: Trial)
    ensures t in Selected(config) <==> Trial("FieldTrial:" + t.key, t.value) in config
  {
    if config != [] {
      var init, last := config[..|config| - 1], config[|config| - 1];
      SelectedAre(init, t);
      assert config == init + [last];
      var full := "FieldTrial:" + t.key;
      assert full[..11] == TRIAL_PREFIX && full[11..] == t.key;
      if TRIAL_PREFIX <= last.key {
        assert last.key == TRIAL_PREFIX + last.key[11..];
      }
    }
  }

  lemma {:induction false} SelectedOnce(config: seq<Trial>)
    requires forall i, j :: 0 <= i < j < |config| ==> config[i].key != config[j].key
    ensures forall i, j :: 0 <= i < j < |Selected(config)| ==> Selected(config)[i].key != Selected(config)[j].key
  {
    if config != [] {
      var init, last := config[..|config| - 1], config[|config| - 1];
      SelectedOnce(init);
      var ts := Selected(init);
      forall i | 0 <= i < |ts| ensures TRIAL_PREFIX <= last.key ==> ts[i].key != last.key[11..] {
        assert ts[i] in ts;
        SelectedAre(init, ts[i]);
        var k :| 0 <= k < |init| && init[k] == Trial("FieldTrial:" + ts[i].key, ts[i].value);
        assert config[k].key != last.key;
        assert TRIAL_PREFIX <= last.key ==> last.key == TRIAL_PREFIX + last.key[11..];
      }
    }
  }

  /** A configuration lists its trials. */
  lemma SelectedLists(c: map<string, string>, config: seq<Trial>, m: map<string, string>)
    requires Lists(config, c)
    requires forall k :: k in m <==> "FieldTrial:" + k in c
    requires forall k :: k in m ==> m[k] == c["FieldTrial:" + k]
    ensures Lists(Selected(config), m)
  {
    SelectedOnce(config);
    var ts := Selected(config);
    hide Selected;
    forall i | 0 <= i < |ts| ensures ts[i].key in m && m[ts[i].key] == ts[i].value {
      assert ts[i] in ts;
      SelectedAre(config, ts[i]);
      var k :| 0 <= k < |config| && config[k] == Trial("FieldTrial:" + ts[i].key, ts[i].value);
    }
    forall k | k in m ensures exists i :: 0 <= i < |ts| && ts[i].key == k {
      var j :| 0 <= j < |config| && config[j].key == "FieldTrial:" + k;
      assert config[j] == Trial("FieldTrial:" + k, m[k]);
      SelectedAre(config, Trial(k, m[k]));
    }
  }

  /** The whole way: a configuration, visited in any order, printed on the command line and parsed gives
      exactly the trials it names, but not the empty one. */
  lemma ConfiguredTrials(c: map<string, string>, config: seq<Trial>)
    requires Lists(config, c)
    requires forall k :: k in c && "FieldTrial:" <= k ==> '/' !in k && '/' !in c[k]
    ensures var parsed := Inserted(map[], ParsedFrom(Printed(Selected(config)), 0));
      && (forall k :: k in parsed <==> k != "" && "FieldTrial:" + k in c)
      && (forall k :: k in parsed ==> parsed[k] == c["FieldTrial:" + k])
  {
    var m := Named(c);
    SelectedLists(c, config, m);
    var ts := Selected(config);
    forall i | 0 <= i < |ts| ensures '/' !in ts[i].key && '/' !in ts[i].value {
      assert ts[i].key in m && m[ts[i].key] == ts[i].value;
      WithPrefix(ts[i].key);
    }
    hide Selected, ParsedFrom, Inserted, Printed, Lists, Named;
    TrialsDelivered(m, ts);
  }

  lemma WithPrefix(k: string)
    ensures "FieldTrial:" <= "FieldTrial:" + k && ('/' in k ==> '/' in "FieldTrial:" + k)
  {
    if i :| 0 <= i < |k| && k[i] == '/' {
      assert ("FieldTrial:" + k)[11 + i] == '/';
    }
  }

  /** The map of the trials that a configuration names. */
  function Named(c: map<string, string>): (m: map<string, string>)
    ensures forall k :: k in m <==> "FieldTrial:" + k in c
    ensures forall k :: k in m ==> m[k] == c["FieldTrial:" + k]
  {
    var keys := set k | k in c && "FieldTrial:" <= k :: k[11..];
    assert forall k :: "FieldTrial:" + k in c ==> k in keys by {
      forall k: string | "FieldTrial:" + k in c ensures k in keys {
        assert ("FieldTrial:" + k)[11..] == k;
      }
    }
    map k | k in keys && "FieldTrial:" + k in c :: c["FieldTrial:" + k]
  }
}
