/** Application configuration derived from environment variables
    (wispr_bot/config.py). The environment itself is a parameter: each
    variable is `None` when unset. */
module Config {
  import opened Wrappers
  import opened Text

  /** The fallback used when `AVAILABLE_MODELS` is unset, and again for an
      empty model list. */
  const FallbackModel := "gpt-3.5-turbo"

  datatype Env = Env(
    botToken: Option<string>,
    adminUserIds: Option<string>,
    databaseUrl: Option<string>,
    openaiApiKey: Option<string>,
    availableModels: Option<string>)

  datatype Settings = Settings(
    adminUserIds: set<int>,
    availableModels: seq<string>,
    defaultModel: string,
    openaiApiKey: string)

  /** One comma-separated segment of `ADMIN_USER_IDS`: skipped by the
      comprehension's `if x`, an id, or a text `int()` rejects. */
  datatype Segment = Blank | Number(value: int) | Malformed

  function Classify(x: string): (c: Segment)
    ensures c.Blank? <==> x == ""
    ensures c.Malformed? <==> x != "" && ParseInt(x).None?
    ensures c.Number? ==> ParseInt(x) == Some(c.value)
  {
    if x == "" then Blank
    else match ParseInt(x)
      case None => Malformed
      case Some(v) => Number(v)
  }

  function Classified(segs: seq<string>): (cs: seq<Segment>)
    ensures |cs| == |segs|
    ensures forall k :: 0 <= k < |segs| ==> cs[k] == Classify(segs[k])
  {
    if |segs| == 0 then [] else [Classify(segs[0])] + Classified(segs[1..])
  }

  /** The set comprehension over classified segments; `None` stands for the
      `ValueError` raised by the first malformed one. */
  function Collect(cs: seq<Segment>): Option<set<int>> {
    if |cs| == 0 then Some({})
    else
      var rest := Collect(cs[1..]);
      match cs[0]
      case Blank => rest
      case Malformed => None
      case Number(v) => if rest.None? then None else Some({v} + rest.value)
  }

  /** Collecting succeeds exactly when no segment is malformed, and then
      holds exactly the numbers among the segments. */
  lemma {:induction false} CollectMeaning(cs: seq<Segment>)
    ensures Collect(cs).Some? <==> forall k :: 0 <= k < |cs| ==> !cs[k].Malformed?
    ensures Collect(cs).Some? ==> forall x :: x in Collect(cs).value <==> Number(x) in cs
  {
    if |cs| > 0 {
      CollectMeaning(cs[1..]);
      assert cs == [cs[0]] + cs[1..];
      assert forall k :: 1 <= k < |cs| ==> cs[k] == cs[1..][k - 1];
    }
  }

  /** Numbered segments, one per id, collect to exactly those ids. */
  lemma {:induction false} CollectNumbers(cs: seq<Segment>, ids: seq<int>)
    requires |cs| == |ids|
    requires forall k :: 0 <= k < |ids| ==> cs[k] == Number(ids[k])
    ensures Collect(cs) == Some(IdSet(ids))
  {
    if |ids| > 0 {
      CollectNumbers(cs[1..], ids[1..]);
    }
  }

  /** The set comprehension `{int(x) for x in segs if x}`. */
  function ParseIds(segs: seq<string>): Option<set<int>> {
    Collect(Classified(segs))
  }

  /** Every non-empty segment parses as an integer. */
  ghost predicate SegmentsParse(segs: seq<string>) {
    forall k :: 0 <= k < |segs| && segs[k] != "" ==> ParseInt(segs[k]).Some?
  }

  /** The comprehension succeeds exactly when every non-empty segment
      parses, and then holds exactly the values they parse to. */
  lemma ParseIdsMeaning(segs: seq<string>)
    ensures ParseIds(segs).Some? <==> SegmentsParse(segs)
    ensures ParseIds(segs).Some? ==> forall x :: x in ParseIds(segs).value <==>
      exists k :: 0 <= k < |segs| && segs[k] != "" && ParseInt(segs[k]) == Some(x)
  {
    var cs := Classified(segs);
    CollectMeaning(cs);
    if ParseIds(segs).Some? {
      forall x | x in ParseIds(segs).value
        ensures exists k :: 0 <= k < |segs| && segs[k] != "" && ParseInt(segs[k]) == Some(x)
      {
        var k :| 0 <= k < |cs| && cs[k] == Number(x);
        assert segs[k] != "" && ParseInt(segs[k]) == Some(x);
      }
      forall x | exists k :: 0 <= k < |segs| && segs[k] != "" && ParseInt(segs[k]) == Some(x)
        ensures x in ParseIds(segs).value
      {
        var k :| 0 <= k < |segs| && segs[k] != "" && ParseInt(segs[k]) == Some(x);
        assert cs[k] == Number(x);
      }
    }
  }

  /** `ADMIN_USER_IDS` (default `""`) split on commas, empty segments dropped. */
  function AdminIds(raw: Option<string>): Option<set<int>> {
    ParseIds(Split(raw.GetOr(""), ','))
  }

  /** `AVAILABLE_MODELS` (default `"gpt-3.5-turbo"`) split on commas. */
  function AvailableModels(raw: Option<string>): (models: seq<string>)
    ensures |models| >= 1
    ensures Join(models, ',') == raw.GetOr(FallbackModel)
  {
    JoinSplit(raw.GetOr(FallbackModel), ',');
    Split(raw.GetOr(FallbackModel), ',')
  }

  /** `available_models[0] if available_models else "gpt-3.5-turbo"`. */
  function DefaultModel(models: seq<string>): string {
    if |models| > 0 then models[0] else FallbackModel
  }

  /** Building the `Config` instance; a malformed admin id list fails the load. */
  function Load(env: Env): (r: Result<Settings, string>)
    ensures r.Success? <==> AdminIds(env.adminUserIds).Some?
    ensures r.Success? ==> |r.value.availableModels| >= 1
    ensures r.Success? ==> r.value.defaultModel == r.value.availableModels[0]
    ensures r.Success? ==> r.value.defaultModel in r.value.availableModels
  {
    match AdminIds(env.adminUserIds)
    case None => Failure("invalid literal for int() in ADMIN_USER_IDS")
    case Some(ids) =>
      var models := AvailableModels(env.availableModels);
      Success(Settings(ids, models, DefaultModel(models), env.openaiApiKey.GetOr("")))
  }

  /** An unset or empty `ADMIN_USER_IDS` gives no admins. */
  lemma NoAdminsByDefault()
    ensures AdminIds(None) == Some({})
    ensures AdminIds(Some("")) == Some({})
  {
    assert Split("", ',') == [""];
  }

  /** A list of printed ids parses back to exactly those ids. */
  lemma {:induction false} AdminIdsOfPrinted(ids: seq<int>)
    requires |ids| >= 1
    ensures AdminIds(Some(Join(PrintIds(ids), ','))) == Some(IdSet(ids))
  {
    var segs := PrintIds(ids);
    SplitJoin(segs, ',');
    assert Split(Join(segs, ','), ',') == segs;
    forall k | 0 <= k < |ids| ensures segs[k] != "" && ParseInt(segs[k]) == Some(ids[k]) {
      IntRoundTrip(ids[k]);
    }
    CollectNumbers(Classified(segs), ids);
  }

  /** The ids of a list, as a set. */
  function IdSet(ids: seq<int>): (r: set<int>)
    ensures forall x :: x in r <==> x in ids
  {
    if |ids| == 0 then {} else {ids[0]} + IdSet(ids[1..])
  }

  /** `str` of each id, for writing an `ADMIN_USER_IDS` value. */
  function PrintIds(ids: seq<int>): (r: seq<string>)
    ensures |r| == |ids|
    ensures forall k :: 0 <= k < |r| ==> r[k] == IntToString(ids[k]) && ',' !in r[k]
  {
    if |ids| == 0 then [] else [IntToString(ids[0])] + PrintIds(ids[1..])
  }

  /** One non-numeric segment makes the whole configuration fail to load. */
  lemma BadAdminIdFailsLoad(env: Env, k: nat)
    requires var segs := Split(env.adminUserIds.GetOr(""), ',');
      k < |segs| && segs[k] != "" && ParseInt(segs[k]).None?
    ensures Load(env).Failure?
  {
    ParseIdsMeaning(Split(env.adminUserIds.GetOr(""), ','));
  }
}
