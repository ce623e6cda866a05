/**
 * The two batch handlers over the indicator store: adding a list of submitted
 * indicators on behalf of an API user, and flipping the `enabled` flag of a list
 * of stored indicators by hash. Each element is processed on its own; a failure
 * skips that element and the batch goes on, keeping a count of successes.
 */
module IndicatorsApi {
  import opened Wrappers
  import opened Strings
  import opened Indicators

  /** A registered user, found by API key. */
  datatype User = User(name: string)

  /** The body of an add request. `kind` is accepted but never consulted. */
  datatype AddRequest = AddRequest(
    kind: string,
    indicators: seq<string>,
    tags: seq<string>,
    enabled: bool)

  datatype ApiError = NotAuthorized

  /** What one batch add works with: the helper functions, the request and its owner. */
  datatype AddContext = AddContext(deps: Deps, req: AddRequest, owner: string)

  /**
   * What the store did with one submitted element: the time read from the clock for
   * the record, and whether `AddIndicator` succeeded. Both are decided outside the
   * handler.
   */
  datatype Step = Step(at: int, stored: bool)

  /** Every stored indicator sits under its own hash. */
  predicate KeyedByHash(m: map<string, Indicator>)
  {
    forall h :: h in m ==> m[h].hashed == h
  }

  /**
   * The indicator store, as a map from hash to record, and the user table, as a map
   * from API key to user. Every operation may fail for reasons outside the model.
   */
  class Database {
    var indicators: map<string, Indicator>
    var users: map<string, User>

    predicate Valid()
      reads this
    {
      KeyedByHash(indicators)
    }

    constructor (users: map<string, User>)
      ensures Valid()
      ensures indicators == map[] && this.users == users
    {
      indicators := map[];
      this.users := users;
    }

    /** `GetUserByKey`: an unknown key is never found; a known one may still fail. */
    method GetUserByKey(key: string) returns (r: Option<User>)
      ensures r.Some? ==> key in users && r.value == users[key]
    {
      var found: bool := *;
      if found && key in users {
        r := Some(users[key]);
      } else {
        r := None;
      }
    }

    /** `AddIndicator`: on success the record is stored under its hash; on failure nothing changes. */
    method AddIndicator(ioc: Indicator) returns (ok: bool)
      requires Valid()
      modifies this`indicators
      ensures Valid()
      ensures ok ==> indicators == old(indicators)[ioc.hashed := ioc]
      ensures !ok ==> indicators == old(indicators)
    {
      ok := *;
      if ok {
        indicators := indicators[ioc.hashed := ioc];
      }
    }

    /** `GetIndicatorByHash`: returns the stored record, or fails. */
    method GetIndicatorByHash(h: string) returns (r: Option<Indicator>)
      requires Valid()
      ensures r.Some? ==> h in indicators && r.value == indicators[h] && r.value.hashed == h
    {
      var found: bool := *;
      if found && h in indicators {
        r := Some(indicators[h]);
      } else {
        r := None;
      }
    }

    /** `UpdateIndicator`: on success the stored record under the same hash is replaced. */
    method UpdateIndicator(ioc: Indicator) returns (ok: bool)
      requires Valid()
      modifies this`indicators
      ensures Valid()
      ensures ok ==> ioc.hashed in old(indicators) && indicators == old(indicators)[ioc.hashed := ioc]
      ensures !ok ==> indicators == old(indicators)
    {
      ok := *;
      if ok && ioc.hashed in indicators {
        indicators := indicators[ioc.hashed := ioc];
      } else {
        ok := false;
      }
    }
  }

  /**
   * The record the add handler builds for one submitted string, or None when its
   * type cannot be detected. A 64-digit hex string is taken as already hashed and
   * gets an empty original; anything else is cleaned and then hashed.
   */
  function Candidate(c: AddContext, raw: string, at: int): (r: Option<Indicator>)
    ensures r.Some? <==> DetectIndicatorType(c.deps, if IsSha256(raw) then "" else CleanIndicator(raw)).Success?
    ensures r.Some? ==> r.value.datetime == at
    ensures r.Some? && IsSha256(raw) ==> r.value.original == "" && r.value.hashed == raw
    ensures r.Some? && !IsSha256(raw) ==> BuiltFrom(c, raw, r.value)
  {
    var original := if IsSha256(raw) then "" else CleanIndicator(raw);
    var hashed := if IsSha256(raw) then raw else c.deps.encodeSHA256(original);
    match DetectIndicatorType(c.deps, original)
    case Failure(_) => None
    case Success(kind) => Some(Indicator(kind, original, hashed, c.req.tags, at, c.owner, c.req.enabled))
  }

  /** The store after one element `raw` has been processed, given what the store did. */
  function AddStep(m: map<string, Indicator>, c: AddContext, raw: string, step: Step): map<string, Indicator>
  {
    match Candidate(c, raw, step.at)
    case Some(ioc) => if step.stored then m[ioc.hashed := ioc] else m
    case None => m
  }

  /** Whether one element counts: its type was detected and the store accepted it. */
  predicate Added(c: AddContext, raw: string, step: Step)
  {
    Candidate(c, raw, step.at).Some? && step.stored
  }

  /** The store after the add handler has processed `items`, given what the store did each time. */
  function AddAll(m: map<string, Indicator>, c: AddContext, items: seq<string>, steps: seq<Step>): map<string, Indicator>
    requires |steps| == |items|
  {
    if items == [] then m
    else
      var n := |items| - 1;
      AddStep(AddAll(m, c, items[..n], steps[..n]), c, items[n], steps[n])
  }

  /** The counter of the add handler: the elements that were typed and then stored. */
  function AddedCount(c: AddContext, items: seq<string>, steps: seq<Step>): (r: nat)
    requires |steps| == |items|
    ensures r <= |items|
  {
    if items == [] then 0
    else
      var n := |items| - 1;
      AddedCount(c, items[..n], steps[..n]) + (if Added(c, items[n], steps[n]) then 1 else 0)
  }

  /**
   * One pass of the add loop: clean (or take as already hashed) the submitted string,
   * detect its type, and try to store the record. An element whose type is unknown
   * and one the store refuses are both skipped.
   */
  method AddOne(db: Database, deps: Deps, req: AddRequest, owner: string, raw: string)
    returns (added: bool, ghost step: Step)
    requires db.Valid()
    modifies db`indicators
    ensures db.Valid()
    ensures db.indicators == AddStep(old(db.indicators), AddContext(deps, req, owner), raw, step)
    ensures added == Added(AddContext(deps, req, owner), raw, step)
  {
    ghost var c := AddContext(deps, req, owner);
    var indicator := raw;
    var hashed: string;
    if IsSha256(indicator) {
      hashed := indicator;
      indicator := "";
    } else {
      indicator := CleanIndicator(indicator);
      hashed := deps.encodeSHA256(indicator);
    }
    var indicatorType := DetectIndicatorType(deps, indicator);
    if indicatorType.Failure? {
      return false, Step(0, false);
    }
    var now: int := *;
    var ioc := Indicator(indicatorType.value, indicator, hashed, req.tags, now, owner, req.enabled);
    var ok := db.AddIndicator(ioc);
    step := Step(now, ok);
    if !ok {
      return false, step;
    }
    added := true;
  }

  /**
   * `apiIndicatorsAdd`: an unknown (or unreadable) API key fails before any write;
   * otherwise every element is tried in turn, and the result is the number of
   * records the store accepted.
   */
  method IndicatorsAdd(db: Database, deps: Deps, apiKey: string, req: AddRequest)
    returns (r: Result<nat, ApiError>, ghost steps: seq<Step>)
    requires db.Valid()
    modifies db`indicators
    ensures db.Valid()
    ensures apiKey !in db.users ==> r == Failure(NotAuthorized)
    ensures r.Failure? ==> db.indicators == old(db.indicators)
    ensures r.Success? ==>
      apiKey in db.users && |steps| == |req.indicators| &&
      var c := AddContext(deps, req, db.users[apiKey].name);
      db.indicators == AddAll(old(db.indicators), c, req.indicators, steps) &&
      r.value == AddedCount(c, req.indicators, steps)
  {
    var user := db.GetUserByKey(apiKey);
    if user.None? {
      return Failure(NotAuthorized), [];
    }
    ghost var c := AddContext(deps, req, user.value.name);
    var items := req.indicators;
    var addedCounter := 0;
    steps := [];
    for i := 0 to |items|
      invariant db.Valid() && |steps| == i
      invariant db.indicators == AddAll(old(db.indicators), c, items[..i], steps)
      invariant addedCounter == AddedCount(c, items[..i], steps)
    {
      var added, step := AddOne(db, deps, req, user.value.name, items[i]);
      assert items[..i + 1][..i] == items[..i];
      steps := steps + [step];
      assert steps[..i] == steps[..|steps| - 1];
      if added {
        addedCounter := addedCounter + 1;
      }
    }
    assert items[..|items|] == items;
    r := Success(addedCounter);
  }

  /** What a stored record holds when it was built from the submitted string `raw`. */
  predicate BuiltFrom(c: AddContext, raw: string, ioc: Indicator)
  {
    && ioc.original == CleanIndicator(raw)
    && ioc.hashed == c.deps.encodeSHA256(ioc.original)
    && DetectIndicatorType(c.deps, ioc.original) == Success(ioc.kind)
    && ioc.tags == c.req.tags
    && ioc.owner == c.owner
    && ioc.enabled == c.req.enabled
  }

  /**
   * A submission that is already a hash has an empty original, so it is stored only
   * if the empty string passes the e-mail or the FQDN check.
   */
  lemma HashedSubmissionSkipped(c: AddContext, raw: string, at: int)
    requires !c.deps.isEmail("") && !c.deps.isFqdn("")
    ensures IsSha256(raw) ==> Candidate(c, raw, at) == None
  {
  }

  /**
   * Every record the add handler puts in the store (whatever the store did with the
   * others) was built from one of the submitted strings that the store accepted.
   */
  lemma {:induction false} AddAllRecords(m: map<string, Indicator>, c: AddContext, items: seq<string>, steps: seq<Step>, h: string)
    requires |steps| == |items|
    requires h in AddAll(m, c, items, steps)
    ensures var r := AddAll(m, c, items, steps);
      (h in m && r[h] == m[h]) ||
      exists i :: 0 <= i < |items| && steps[i].stored && Candidate(c, items[i], steps[i].at) == Some(r[h])
  {
    if items != [] {
      var n := |items| - 1;
      var before := AddAll(m, c, items[..n], steps[..n]);
      var r := AddAll(m, c, items, steps);
      var cand := Candidate(c, items[n], steps[n].at);
      if cand.Some? && steps[n].stored && h == cand.value.hashed {
        assert Candidate(c, items[n], steps[n].at) == Some(r[h]);
      } else {
        assert h in before && r[h] == before[h];
        AddAllRecords(m, c, items[..n], steps[..n], h);
        forall i | 0 <= i < n ensures items[..n][i] == items[i] && steps[..n][i] == steps[i] {}
      }
    }
  }

  /**
   * When the empty string is neither an e-mail nor an FQDN, every new record holds
   * the cleaned form of a submitted string, its hash, its detected type, and the
   * request's tags, owner and flag.
   */
  lemma AddAllStoresCleaned(m: map<string, Indicator>, c: AddContext, items: seq<string>, steps: seq<Step>, h: string)
    requires !c.deps.isEmail("") && !c.deps.isFqdn("")
    requires |steps| == |items|
    requires h in AddAll(m, c, items, steps)
    ensures var r := AddAll(m, c, items, steps);
      (h in m && r[h] == m[h]) ||
      exists i :: 0 <= i < |items| && !IsSha256(items[i]) && BuiltFrom(c, items[i], r[h])
  {
    var r := AddAll(m, c, items, steps);
    AddAllRecords(m, c, items, steps, h);
    if !(h in m && r[h] == m[h]) {
      var i :| 0 <= i < |items| && steps[i].stored && Candidate(c, items[i], steps[i].at) == Some(r[h]);
      HashedSubmissionSkipped(c, items[i], steps[i].at);
    }
  }

  /** The add handler keeps every record under its own hash. */
  lemma {:induction false} AddAllKeyedByHash(m: map<string, Indicator>, c: AddContext, items: seq<string>, steps: seq<Step>)
    requires |steps| == |items|
    requires KeyedByHash(m)
    ensures KeyedByHash(AddAll(m, c, items, steps))
  {
    if items != [] {
      var n := |items| - 1;
      AddAllKeyedByHash(m, c, items[..n], steps[..n]);
    }
  }

  /** The request's type field plays no part: any value gives the same store. */
  lemma {:induction false} AddAllIgnoresKind(m: map<string, Indicator>, c: AddContext, items: seq<string>, steps: seq<Step>, kind: string)
    requires |steps| == |items|
    ensures AddAll(m, c.(req := c.req.(kind := kind)), items, steps) == AddAll(m, c, items, steps)
    ensures AddedCount(c.(req := c.req.(kind := kind)), items, steps) == AddedCount(c, items, steps)
  {
    if items != [] {
      var n := |items| - 1;
      var c' := c.(req := c.req.(kind := kind));
      AddAllIgnoresKind(m, c, items[..n], steps[..n], kind);
      assert Candidate(c', items[n], steps[n].at) == Candidate(c, items[n], steps[n].at) by {
        assert c'.deps == c.deps && c'.owner == c.owner;
        assert c'.req.tags == c.req.tags && c'.req.enabled == c.req.enabled;
      }
    }
  }

  /** The store gains at most one hash per counted success. */
  lemma {:induction false} AddAllGrowth(m: map<string, Indicator>, c: AddContext, items: seq<string>, steps: seq<Step>)
    requires |steps| == |items|
    ensures m.Keys <= AddAll(m, c, items, steps).Keys
    ensures |AddAll(m, c, items, steps).Keys| <= |m.Keys| + AddedCount(c, items, steps)
  {
    if items != [] {
      var n := |items| - 1;
      var before := AddAll(m, c, items[..n], steps[..n]);
      AddAllGrowth(m, c, items[..n], steps[..n]);
      var cand := Candidate(c, items[n], steps[n].at);
      if cand.Some? && steps[n].stored {
        var k := cand.value.hashed;
        assert before[k := cand.value].Keys == before.Keys + {k};
        assert |before.Keys + {k}| <= |before.Keys| + |{k}|;
      }
    }
  }

  /** Whether one toggle of `h` takes effect on store `m`, given what the store did. */
  predicate Toggled(m: map<string, Indicator>, h: string, done: bool)
  {
    done && IsSha256(h) && h in m
  }

  /** The record under `h` with its `enabled` flag negated, nothing else changed. */
  function Flip(m: map<string, Indicator>, h: string): map<string, Indicator>
    requires h in m
  {
    m[h := m[h].(enabled := !m[h].enabled)]
  }

  /** The store after one toggle of `h`, given whether the lookup and the update succeeded. */
  function ToggleStep(m: map<string, Indicator>, h: string, done: bool): map<string, Indicator>
  {
    if Toggled(m, h, done) then Flip(m, h) else m
  }

  /** The store after the toggle handler has processed `hashes`, given which updates succeeded. */
  function ToggleAll(m: map<string, Indicator>, hashes: seq<string>, done: seq<bool>): map<string, Indicator>
    requires |done| == |hashes|
  {
    if hashes == [] then m
    else
      var n := |hashes| - 1;
      ToggleStep(ToggleAll(m, hashes[..n], done[..n]), hashes[n], done[n])
  }

  /** The counter of the toggle handler: the toggles that took effect. */
  function ToggledCount(m: map<string, Indicator>, hashes: seq<string>, done: seq<bool>): (r: nat)
    requires |done| == |hashes|
    ensures r <= |hashes|
  {
    if hashes == [] then 0
    else
      var n := |hashes| - 1;
      ToggledCount(m, hashes[..n], done[..n])
        + (if Toggled(ToggleAll(m, hashes[..n], done[..n]), hashes[n], done[n]) then 1 else 0)
  }

  /**
   * One pass of the toggle loop: a string that is not a hash, a hash not found and a
   * failed update are skipped; otherwise the record's flag is negated.
   */
  method ToggleOne(db: Database, indicator: string) returns (toggled: bool, ghost done: bool)
    requires db.Valid()
    modifies db`indicators
    ensures db.Valid()
    ensures db.indicators == ToggleStep(old(db.indicators), indicator, done)
    ensures toggled == Toggled(old(db.indicators), indicator, done)
  {
    if !IsSha256(indicator) {
      return false, false;
    }
    var found := db.GetIndicatorByHash(indicator);
    if found.None? {
      return false, false;
    }
    var ioc := found.value;
    ioc := ioc.(enabled := !ioc.enabled);
    var ok := db.UpdateIndicator(ioc);
    if !ok {
      return false, false;
    }
    toggled, done := true, true;
  }

  /**
   * `apiIndicatorsToggle`: every listed string is tried in turn; the result is the
   * number of records whose flag was negated.
   */
  method IndicatorsToggle(db: Database, hashes: seq<string>) returns (toggledCounter: nat, ghost done: seq<bool>)
    requires db.Valid()
    modifies db`indicators
    ensures db.Valid() && |done| == |hashes|
    ensures db.indicators == ToggleAll(old(db.indicators), hashes, done)
    ensures toggledCounter == ToggledCount(old(db.indicators), hashes, done)
  {
    toggledCounter := 0;
    done := [];
    for i := 0 to |hashes|
      invariant db.Valid() && |done| == i
      invariant db.indicators == ToggleAll(old(db.indicators), hashes[..i], done)
      invariant toggledCounter == ToggledCount(old(db.indicators), hashes[..i], done)
    {
      var toggled, d := ToggleOne(db, hashes[i]);
      assert hashes[..i + 1][..i] == hashes[..i];
      done := done + [d];
      assert done[..i] == done[..|done| - 1];
      if toggled {
        toggledCounter := toggledCounter + 1;
      }
    }
    assert hashes[..|hashes|] == hashes;
  }

  /** Toggling never adds or removes a record. */
  lemma {:induction false} ToggleAllKeys(m: map<string, Indicator>, hashes: seq<string>, done: seq<bool>)
    requires |done| == |hashes|
    ensures ToggleAll(m, hashes, done).Keys == m.Keys
  {
    if hashes != [] {
      ToggleAllKeys(m, hashes[..|hashes| - 1], done[..|done| - 1]);
    }
  }

  /** How many of the listed toggles of `h` take effect. */
  function FlipCount(m: map<string, Indicator>, hashes: seq<string>, done: seq<bool>, h: string): (r: nat)
    requires |done| == |hashes|
    ensures r <= |hashes|
  {
    if hashes == [] then 0
    else
      var n := |hashes| - 1;
      FlipCount(m, hashes[..n], done[..n], h) + (if hashes[n] == h && Toggled(m, h, done[n]) then 1 else 0)
  }

  /**
   * Each record ends with its flag negated once per effective toggle of its hash,
   * and with every other field unchanged.
   */
  lemma {:induction false} ToggleAllParity(m: map<string, Indicator>, hashes: seq<string>, done: seq<bool>, h: string)
    requires |done| == |hashes|
    requires h in m
    ensures var r := ToggleAll(m, hashes, done);
      h in r && r[h] == m[h].(enabled := m[h].enabled != (FlipCount(m, hashes, done, h) % 2 == 1))
  {
    if hashes != [] {
      var n := |hashes| - 1;
      ToggleAllParity(m, hashes[..n], done[..n], h);
      ToggleAllKeys(m, hashes[..n], done[..n]);
    }
  }

  /** A record whose hash is not listed is left as it was. */
  lemma {:induction false} ToggleUnlisted(m: map<string, Indicator>, hashes: seq<string>, done: seq<bool>, h: string)
    requires |done| == |hashes|
    requires h in m && h !in hashes
    ensures var r := ToggleAll(m, hashes, done); h in r && r[h] == m[h]
  {
    ToggleAllParity(m, hashes, done, h);
    FlipNone(m, hashes, done, h);
  }

  lemma {:induction false} FlipNone(m: map<string, Indicator>, hashes: seq<string>, done: seq<bool>, h: string)
    requires |done| == |hashes|
    requires h !in hashes
    ensures FlipCount(m, hashes, done, h) == 0
  {
    if hashes != [] {
      var n := |hashes| - 1;
      assert hashes[n] in hashes;
      FlipNone(m, hashes[..n], done[..n], h);
    }
  }

  /** A hash listed twice, toggled both times, ends as it began. */
  lemma ToggleListedTwice(m: map<string, Indicator>, h: string)
    requires IsSha256(h) && h in m
    ensures ToggleAll(m, [h, h], [true, true]) == m
  {
    assert [h, h][..1] == [h] && [true, true][..1] == [true];
    assert [h][..0] == [] && [true][..0] == [];
    assert ToggleAll(m, [h][..0], [true][..0]) == m;
    var once := ToggleAll(m, [h], [true]);
    assert Toggled(m, h, true) && once == Flip(m, h);
    assert Flip(once, h) == m[h := m[h]];
  }

  /** Toggling keeps every record under its own hash. */
  lemma {:induction false} ToggleAllKeyedByHash(m: map<string, Indicator>, hashes: seq<string>, done: seq<bool>)
    requires |done| == |hashes|
    requires KeyedByHash(m)
    ensures KeyedByHash(ToggleAll(m, hashes, done))
  {
    if hashes != [] {
      ToggleAllKeyedByHash(m, hashes[..|hashes| - 1], done[..|done| - 1]);
    }
  }
}
