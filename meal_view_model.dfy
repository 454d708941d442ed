/** The screen state holder of the meal log: the meal list, the latest result shown to the
    user, the error banner, the analysis flag, the profile, and the duplicate-save guard.
    Clock readings, fresh ids and the outcome of every storage write arrive as parameters. */
module ViewModel {
  import opened Wrappers
  import opened Text
  import opened Decimal
  import opened Meals
  import opened Profile
  import opened Sequences

  /** A repeat save of the same meal inside this many milliseconds of the last save is dropped. */
  const DuplicateWindowMs: int := 5000
  /** A stored meal recorded within this many milliseconds of a new one with the same
      fingerprint counts as the same meal. */
  const StoredDuplicateWindowMs: int := 30000

  /** The message of a thrown exception, which Kotlin leaves null when the exception has none;
      it is shown in the error banner as it is, so a message-less failure clears the banner. */
  type ThrownMessage = Option<string>

  /** What a storage write did: it succeeded, or it threw with this message. */
  datatype WriteOutcome = Written | WriteFailed(message: ThrownMessage)

  /** The fingerprint of the last meal this view model committed, and when. */
  datatype Marker = Marker(fingerprint: string, savedAt: int)

  // ---------------------------------------------------------------------------------------------
  // Fingerprints

  /** Trimmed description and the three macros with two decimals, separated by '|'. */
  function Fingerprint(m: MealEntry): string {
    Trim(m.description) + "|" + Fixed2(m.fatGrams) + "|" + Fixed2(m.carbGrams) + "|"
      + Fixed2(m.proteinGrams)
  }

  /** The position of the last '|' in `s`, or -1. */
  function LastBar(s: string): (k: int)
    ensures -1 <= k < |s|
  {
    if s == [] then -1
    else if s[|s| - 1] == '|' then |s| - 1
    else LastBar(s[..|s| - 1])
  }

  lemma {:induction false} LastBarOf(x: string, c: string)
    requires '|' !in c
    ensures LastBar(x + "|" + c) == |x|
  {
    var s := x + "|" + c;
    if c != [] {
      assert s[..|s| - 1] == x + "|" + c[..|c| - 1];
      assert c[|c| - 1] in c;
      LastBarOf(x, c[..|c| - 1]);
    }
  }

  /** Splitting at the last '|' is unambiguous. */
  lemma SplitAtLastBar(x: string, c: string, y: string, d: string)
    requires '|' !in c && '|' !in d
    requires x + "|" + c == y + "|" + d
    ensures x == y && c == d
  {
    var s := x + "|" + c;
    LastBarOf(x, c);
    LastBarOf(y, d);
    assert x == s[..|x|];
    assert y == (y + "|" + d)[..|y|];
    assert c == s[|x| + 1..];
    assert d == (y + "|" + d)[|y| + 1..];
  }

  /** Two meals have the same fingerprint exactly when their trimmed descriptions and all
      three macros agree to the hundredth. */
  lemma FingerprintEquality(a: MealEntry, b: MealEntry)
    ensures Fingerprint(a) == Fingerprint(b) <==>
      Trim(a.description) == Trim(b.description) && a.fatGrams == b.fatGrams
      && a.carbGrams == b.carbGrams && a.proteinGrams == b.proteinGrams
  {
    Fixed2Injective(a.fatGrams, b.fatGrams);
    Fixed2Injective(a.carbGrams, b.carbGrams);
    Fixed2Injective(a.proteinGrams, b.proteinGrams);
    if Fingerprint(a) == Fingerprint(b) {
      var ta := Trim(a.description) + "|" + Fixed2(a.fatGrams) + "|" + Fixed2(a.carbGrams);
      var tb := Trim(b.description) + "|" + Fixed2(b.fatGrams) + "|" + Fixed2(b.carbGrams);
      SplitAtLastBar(ta, Fixed2(a.proteinGrams), tb, Fixed2(b.proteinGrams));
      var ua := Trim(a.description) + "|" + Fixed2(a.fatGrams);
      var ub := Trim(b.description) + "|" + Fixed2(b.fatGrams);
      SplitAtLastBar(ua, Fixed2(a.carbGrams), ub, Fixed2(b.carbGrams));
      SplitAtLastBar(Trim(a.description), Fixed2(a.fatGrams), Trim(b.description), Fixed2(b.fatGrams));
    }
  }

  /** Whitespace around the description does not change the fingerprint. */
  lemma FingerprintIgnoresPadding(m: MealEntry, pre: string, post: string)
    requires IsBlank(pre) && IsBlank(post)
    ensures Fingerprint(m.(description := pre + m.description + post)) == Fingerprint(m)
  {
    TrimPadded(pre, m.description, post);
  }

  // ---------------------------------------------------------------------------------------------
  // List operations

  /** `existing` is taken to be the same meal as `candidate`. */
  predicate IsStoredDuplicate(existing: MealEntry, candidate: MealEntry) {
    Fingerprint(existing) == Fingerprint(candidate)
    && Abs(existing.recordedAt - candidate.recordedAt) <= StoredDuplicateWindowMs
  }

  /** The position of the first stored meal that `candidate` duplicates. */
  function FirstDuplicate(meals: seq<MealEntry>, candidate: MealEntry): (r: Option<nat>)
    ensures r.Some? ==> r.value < |meals| && IsStoredDuplicate(meals[r.value], candidate)
    ensures r.Some? ==> forall j :: 0 <= j < r.value ==> !IsStoredDuplicate(meals[j], candidate)
    ensures r.None? <==> forall j :: 0 <= j < |meals| ==> !IsStoredDuplicate(meals[j], candidate)
  {
    FirstWhere(meals, existing => IsStoredDuplicate(existing, candidate))
  }

  /** `map { if (it.id == entry.id) entry else it }`. */
  function ReplaceById(meals: seq<MealEntry>, entry: MealEntry): (r: seq<MealEntry>)
    ensures |r| == |meals|
    ensures forall i :: 0 <= i < |meals| ==>
      r[i] == if meals[i].id == entry.id then entry else meals[i]
  {
    if meals == [] then []
    else [if meals[0].id == entry.id then entry else meals[0]] + ReplaceById(meals[1..], entry)
  }

  /** Replacing twice with the same entry is replacing once. */
  lemma ReplaceByIdIdempotent(meals: seq<MealEntry>, entry: MealEntry)
    ensures ReplaceById(ReplaceById(meals, entry), entry) == ReplaceById(meals, entry)
  {
  }

  /** An entry whose id is not in the list leaves it as it was. */
  lemma ReplaceUnknownId(meals: seq<MealEntry>, entry: MealEntry)
    requires forall i :: 0 <= i < |meals| ==> meals[i].id != entry.id
    ensures ReplaceById(meals, entry) == meals
  {
  }

  /** `filterNot { it.id == id }`. */
  function RemoveById(meals: seq<MealEntry>, id: string): (r: seq<MealEntry>)
    ensures |r| <= |meals|
    ensures forall m :: m in r <==> m in meals && m.id != id
  {
    if meals == [] then []
    else if meals[0].id == id then RemoveById(meals[1..], id)
    else [meals[0]] + RemoveById(meals[1..], id)
  }

  /** Removal keeps the order of what stays: it distributes over concatenation. */
  lemma {:induction false} RemoveByIdConcat(a: seq<MealEntry>, b: seq<MealEntry>, id: string)
    ensures RemoveById(a + b, id) == RemoveById(a, id) + RemoveById(b, id)
  {
    if a != [] {
      assert (a + b)[0] == a[0];
      assert (a + b)[1..] == a[1..] + b;
      RemoveByIdConcat(a[1..], b, id);
    } else {
      assert a + b == b;
    }
  }

  /** Removing an id nobody has changes nothing. */
  lemma {:induction false} RemoveUnknownId(meals: seq<MealEntry>, id: string)
    requires forall i :: 0 <= i < |meals| ==> meals[i].id != id
    ensures RemoveById(meals, id) == meals
  {
    if meals != [] {
      RemoveUnknownId(meals[1..], id);
      assert meals == [meals[0]] + meals[1..];
    }
  }

  // ---------------------------------------------------------------------------------------------
  // The state and its transitions

  /** Everything the view model exposes, plus its private duplicate marker. */
  datatype ViewState = ViewState(
    meals: seq<MealEntry>,
    isAnalyzing: bool,
    error: Option<string>,
    latestResult: Option<MealEntry>,
    userConfiguration: Option<UserConfiguration>,
    isLoadingUserConfiguration: bool,
    lastSavedFingerprint: Option<Marker>)

  /** The state when the view model is created, before either load has finished. */
  const Initial: ViewState := ViewState([], false, None, None, None, true, None)

  /** The meal load of `init` finishing: the list on success, the message on failure. */
  function AfterMealsLoaded(s: ViewState, loaded: Result<seq<MealEntry>, ThrownMessage>): (t: ViewState)
    ensures loaded.Ok? ==> t == s.(meals := loaded.value)
    ensures loaded.Err? ==> t == s.(error := loaded.error)
  {
    match loaded
    case Ok(list) => s.(meals := list)
    case Err(message) => s.(error := message)
  }

  /** The profile load of `init` finishing, which always clears the loading flag. */
  function AfterConfigurationLoaded(s: ViewState, loaded: Result<Option<UserConfiguration>, ThrownMessage>)
    : (t: ViewState)
    ensures !t.isLoadingUserConfiguration
    ensures loaded.Ok? ==> t == s.(userConfiguration := loaded.value, isLoadingUserConfiguration := false)
    ensures loaded.Err? ==> t == s.(error := loaded.error, isLoadingUserConfiguration := false)
  {
    var stored := match loaded
      case Ok(c) => s.(userConfiguration := c)
      case Err(message) => s.(error := message);
    stored.(isLoadingUserConfiguration := false)
  }

  /** `saveUserConfiguration`: the profile is shown at once; a failed write only reports. */
  function AfterSaveConfiguration(s: ViewState, c: UserConfiguration, outcome: WriteOutcome)
    : (t: ViewState)
    ensures t.userConfiguration == Some(c)
    ensures t.meals == s.meals && t.latestResult == s.latestResult
    ensures t.error == if outcome.WriteFailed? then outcome.message else s.error
  {
    var shown := s.(userConfiguration := Some(c));
    match outcome
    case Written => shown
    case WriteFailed(message) => shown.(error := message)
  }

  /** `writeMeals`: on success the list is replaced and the latest result becomes `latest`,
      unless the removed meal was the one shown, which clears it; on failure only the error
      changes. */
  function AfterWrite(s: ViewState, updated: seq<MealEntry>, latest: Option<MealEntry>,
                      removedId: Option<string>, outcome: WriteOutcome): (t: ViewState)
    ensures outcome.WriteFailed? ==> t == s.(error := outcome.message)
    ensures outcome.Written? ==> t.meals == updated && t.error == s.error
    ensures outcome.Written? ==>
      (t.latestResult == None <==>
        latest == None || (removedId.Some? && s.latestResult.Some? && s.latestResult.value.id == removedId.value))
    ensures outcome.Written? && t.latestResult.Some? ==> t.latestResult == latest
    ensures t.lastSavedFingerprint == s.lastSavedFingerprint && t.isAnalyzing == s.isAnalyzing
    ensures t.userConfiguration == s.userConfiguration
  {
    match outcome
    case Written =>
      var cleared := removedId.Some? && s.latestResult.Some? && s.latestResult.value.id == removedId.value;
      s.(meals := updated, latestResult := if cleared then None else latest)
    case WriteFailed(message) => s.(error := message)
  }

  /** Which of the three ways `persistMealEntry` goes. */
  datatype PersistPath = RecentRepeat | StoredDuplicate(index: nat) | Commit

  /** The marker says the same meal was committed less than the window ago. */
  predicate IsRecentRepeat(marker: Option<Marker>, fingerprint: string, now: int) {
    marker.Some? && marker.value.fingerprint == fingerprint
    && now - marker.value.savedAt < DuplicateWindowMs
  }

  function PathOf(s: ViewState, entry: MealEntry, now: int): (p: PersistPath)
    ensures p.StoredDuplicate? ==> p.index < |s.meals|
  {
    if IsRecentRepeat(s.lastSavedFingerprint, Fingerprint(entry), now) then RecentRepeat
    else
      match FirstDuplicate(s.meals, entry)
      case Some(k) => StoredDuplicate(k)
      case None => Commit
  }

  /** `persistMealEntry`: the state after saving `entry` at clock reading `now`. */
  function AfterPersist(s: ViewState, entry: MealEntry, now: int, outcome: WriteOutcome): ViewState {
    match PathOf(s, entry, now)
    case RecentRepeat => s.(latestResult := Some(entry))
    case StoredDuplicate(k) => s.(latestResult := Some(s.meals[k]))
    case Commit =>
      AfterWrite(s, s.meals + [entry], Some(entry), None, outcome)
        .(lastSavedFingerprint := Some(Marker(Fingerprint(entry), now)))
  }

  /** The list `persistMealEntry` hands to storage, if it writes at all. */
  function PersistWrite(s: ViewState, entry: MealEntry, now: int): (w: Option<seq<MealEntry>>)
    ensures w.Some? <==> PathOf(s, entry, now).Commit?
    ensures w.Some? ==> w.value == s.meals + [entry]
  {
    if PathOf(s, entry, now).Commit? then Some(s.meals + [entry]) else None
  }

  /** A repeat of the last committed meal inside five seconds shows the new entry and
      touches nothing else. */
  lemma RecentRepeatShowsNewEntry(s: ViewState, entry: MealEntry, now: int, outcome: WriteOutcome)
    requires IsRecentRepeat(s.lastSavedFingerprint, Fingerprint(entry), now)
    ensures AfterPersist(s, entry, now, outcome) == s.(latestResult := Some(entry))
    ensures PersistWrite(s, entry, now) == None
  {
  }

  /** Otherwise the first stored meal with the same fingerprint recorded within thirty
      seconds is shown instead, and nothing is written. */
  lemma StoredDuplicateShowsStoredMeal(s: ViewState, entry: MealEntry, now: int,
                                       outcome: WriteOutcome, k: nat)
    requires !IsRecentRepeat(s.lastSavedFingerprint, Fingerprint(entry), now)
    requires k < |s.meals| && IsStoredDuplicate(s.meals[k], entry)
    requires forall j :: 0 <= j < k ==> !IsStoredDuplicate(s.meals[j], entry)
    ensures AfterPersist(s, entry, now, outcome) == s.(latestResult := Some(s.meals[k]))
    ensures PersistWrite(s, entry, now) == None
  {
    var r := FirstDuplicate(s.meals, entry);
    assert IsStoredDuplicate(s.meals[k], entry);
    assert r.Some?;
    assert IsStoredDuplicate(s.meals[r.value], entry);
    assert r.value == k;
    assert PathOf(s, entry, now) == StoredDuplicate(k);
  }

  /** A new meal that passes both checks is appended and shown, and the marker records it. */
  lemma CommitAppends(s: ViewState, entry: MealEntry, now: int)
    requires !IsRecentRepeat(s.lastSavedFingerprint, Fingerprint(entry), now)
    requires forall j :: 0 <= j < |s.meals| ==> !IsStoredDuplicate(s.meals[j], entry)
    ensures AfterPersist(s, entry, now, Written) ==
      s.(meals := s.meals + [entry], latestResult := Some(entry),
         lastSavedFingerprint := Some(Marker(Fingerprint(entry), now)))
    ensures PersistWrite(s, entry, now) == Some(s.meals + [entry])
  {
  }

  /** When that write fails, the list and the latest result stay, the error is shown, and the
      marker is still set, so a retry within five seconds is dropped. */
  lemma FailedCommitStillMarks(s: ViewState, entry: MealEntry, now: int, message: ThrownMessage)
    requires !IsRecentRepeat(s.lastSavedFingerprint, Fingerprint(entry), now)
    requires forall j :: 0 <= j < |s.meals| ==> !IsStoredDuplicate(s.meals[j], entry)
    ensures AfterPersist(s, entry, now, WriteFailed(message)) ==
      s.(error := message, lastSavedFingerprint := Some(Marker(Fingerprint(entry), now)))
  {
  }

  /** After a commit, whatever the write did, saving the same meal again less than five
      seconds later writes nothing and leaves the list alone. */
  lemma RepeatAfterCommitDropped(s: ViewState, entry: MealEntry, again: MealEntry, now: int,
                                 later: int, first: WriteOutcome, second: WriteOutcome)
    requires PathOf(s, entry, now).Commit?
    requires Fingerprint(again) == Fingerprint(entry)
    requires later < now + DuplicateWindowMs
    ensures var t := AfterPersist(s, entry, now, first);
      PersistWrite(t, again, later) == None
      && AfterPersist(t, again, later, second) == t.(latestResult := Some(again))
  {
    var t := AfterPersist(s, entry, now, first);
    assert t.lastSavedFingerprint == Some(Marker(Fingerprint(entry), now));
  }

  /** After a successful commit, a later save of a meal with the same fingerprint recorded
      within thirty seconds of it finds a stored duplicate, however much time has passed. */
  lemma CommittedMealBlocksCopies(s: ViewState, entry: MealEntry, again: MealEntry, now: int,
                                  later: int)
    requires PathOf(s, entry, now).Commit?
    requires Fingerprint(again) == Fingerprint(entry)
    requires Abs(again.recordedAt - entry.recordedAt) <= StoredDuplicateWindowMs
    ensures var t := AfterPersist(s, entry, now, Written);
      PersistWrite(t, again, later) == None && AfterPersist(t, again, later, Written).meals == t.meals
  {
    var t := AfterPersist(s, entry, now, Written);
    assert t.meals[|s.meals|] == entry;
    assert IsStoredDuplicate(t.meals[|s.meals|], again);
  }

  /** `analyzeMeal`'s guard: a second start while analysing does nothing; otherwise the error
      is cleared and the flag raised. */
  function AfterStartAnalysis(s: ViewState): (t: ViewState)
    ensures s.isAnalyzing ==> t == s
    ensures !s.isAnalyzing ==> t == s.(error := None, isAnalyzing := true)
  {
    if s.isAnalyzing then s else s.(error := None, isAnalyzing := true)
  }

  /** The end of the analysis coroutine: a failure is reported, a result is persisted with a
      fresh id and the clock's instant, and the flag is lowered in either case. */
  function AfterAnalysis(s: ViewState, analysis: Result<MealAnalysis, ThrownMessage>, id: string,
                         recordedAt: int, now: int, outcome: WriteOutcome): (t: ViewState)
    ensures !t.isAnalyzing
    ensures analysis.Err? ==> t == s.(error := analysis.error, isAnalyzing := false)
  {
    match analysis
    case Err(message) => s.(error := message, isAnalyzing := false)
    case Ok(a) =>
      var entry := NewMeal(id, recordedAt, a.description, a.fatGrams, a.carbGrams, a.proteinGrams);
      AfterPersist(s, entry, now, outcome).(isAnalyzing := false)
  }

  /** The meal `addManualMeal` builds, or None when the trimmed description is empty. */
  function ManualEntry(description: string, fatGrams: int, carbGrams: int, proteinGrams: int,
                       id: string, recordedAt: int): (r: Option<MealEntry>)
    ensures r.None? <==> IsBlank(description)
    ensures r.Some? ==> r.value == NewMeal(id, recordedAt, Trim(description), fatGrams, carbGrams, proteinGrams)
  {
    BlankTrimsToEmpty(description);
    var trimmed := Trim(description);
    if trimmed == [] then None
    else Some(NewMeal(id, recordedAt, trimmed, fatGrams, carbGrams, proteinGrams))
  }

  /** Deleting always leaves no latest result after a successful write, whichever meal was
      shown, and removes every copy of the id. */
  lemma DeleteClearsLatest(s: ViewState, id: string)
    ensures var t := AfterWrite(s, RemoveById(s.meals, id), None, Some(id), Written);
      t.latestResult == None && forall m :: m in t.meals ==> m.id != id
  {
  }

  /** Updating shows the edited entry and replaces the stored one in place. */
  lemma UpdateShowsEntry(s: ViewState, entry: MealEntry)
    ensures var t := AfterWrite(s, ReplaceById(s.meals, entry), Some(entry), None, Written);
      t.latestResult == Some(entry) && |t.meals| == |s.meals|
      && forall i :: 0 <= i < |s.meals| && s.meals[i].id == entry.id ==> t.meals[i] == entry
  {
  }

  // ---------------------------------------------------------------------------------------------
  // The view model object

  class MealViewModel {
    var meals: seq<MealEntry>
    var isAnalyzing: bool
    var error: Option<string>
    var latestResult: Option<MealEntry>
    var userConfiguration: Option<UserConfiguration>
    var isLoadingUserConfiguration: bool
    var lastSavedFingerprint: Option<Marker>

    function State(): ViewState
      reads this
    {
      ViewState(meals, isAnalyzing, error, latestResult, userConfiguration,
                isLoadingUserConfiguration, lastSavedFingerprint)
    }

    /** A new view model; the two loads of `init` finish later, in either order. */
    constructor ()
      ensures State() == Initial
    {
      meals := [];
      isAnalyzing := false;
      error := None;
      latestResult := None;
      userConfiguration := None;
      isLoadingUserConfiguration := true;
      lastSavedFingerprint := None;
    }

    method MealsLoaded(loaded: Result<seq<MealEntry>, ThrownMessage>)
      modifies this
      ensures State() == AfterMealsLoaded(old(State()), loaded)
    {
      match loaded {
        case Ok(list) => meals := list;
        case Err(message) => error := message;
      }
    }

    method ConfigurationLoaded(loaded: Result<Option<UserConfiguration>, ThrownMessage>)
      modifies this
      ensures State() == AfterConfigurationLoaded(old(State()), loaded)
    {
      match loaded {
        case Ok(stored) => userConfiguration := stored;
        case Err(message) => error := message;
      }
      isLoadingUserConfiguration := false;
    }

    /** Returns the profile handed to storage. */
    method SaveUserConfiguration(configuration: UserConfiguration, outcome: WriteOutcome)
      returns (written: UserConfiguration)
      modifies this
      ensures State() == AfterSaveConfiguration(old(State()), configuration, outcome)
      ensures written == configuration
    {
      userConfiguration := Some(configuration);
      written := configuration;
      if outcome.WriteFailed? {
        error := outcome.message;
      }
    }

    /** Returns whether the analysis was started. */
    method StartAnalysis() returns (started: bool)
      modifies this
      ensures State() == AfterStartAnalysis(old(State()))
      ensures started == !old(isAnalyzing)
    {
      if isAnalyzing {
        return false;
      }
      error := None;
      isAnalyzing := true;
      started := true;
    }

    /** Returns the list handed to storage, if any. */
    method FinishAnalysis(analysis: Result<MealAnalysis, ThrownMessage>, id: string, recordedAt: int,
                          now: int, outcome: WriteOutcome)
      returns (written: Option<seq<MealEntry>>)
      modifies this
      ensures State() == AfterAnalysis(old(State()), analysis, id, recordedAt, now, outcome)
      ensures written == if analysis.Err? then None
        else PersistWrite(old(State()), NewMeal(id, recordedAt, analysis.value.description,
          analysis.value.fatGrams, analysis.value.carbGrams, analysis.value.proteinGrams), now)
    {
      written := None;
      match analysis {
        case Err(message) => error := message;
        case Ok(a) =>
          var entry := NewMeal(id, recordedAt, a.description, a.fatGrams, a.carbGrams, a.proteinGrams);
          written := PersistMealEntry(entry, now, outcome);
      }
      isAnalyzing := false;
    }

    /** Returns the list handed to storage, if any. */
    method AddManualMeal(description: string, fatGrams: int, carbGrams: int, proteinGrams: int,
                         id: string, recordedAt: int, now: int, outcome: WriteOutcome)
      returns (written: Option<seq<MealEntry>>)
      modifies this
      ensures var e := ManualEntry(description, fatGrams, carbGrams, proteinGrams, id, recordedAt);
        State() == (if e.None? then old(State()) else AfterPersist(old(State()), e.value, now, outcome))
        && written == (if e.None? then None else PersistWrite(old(State()), e.value, now))
    {
      var trimmed := Trim(description);
      if trimmed == [] {
        return None;
      }
      var entry := NewMeal(id, recordedAt, trimmed, fatGrams, carbGrams, proteinGrams);
      written := PersistMealEntry(entry, now, outcome);
    }

    /** Returns the list handed to storage. */
    method UpdateMeal(entry: MealEntry, outcome: WriteOutcome) returns (written: seq<MealEntry>)
      modifies this
      ensures written == ReplaceById(old(meals), entry)
      ensures State() == AfterWrite(old(State()), written, Some(entry), None, outcome)
    {
      written := ReplaceById(meals, entry);
      WriteMeals(written, Some(entry), None, outcome);
    }

    /** Returns the list handed to storage. */
    method DeleteMeal(id: string, outcome: WriteOutcome) returns (written: seq<MealEntry>)
      modifies this
      ensures written == RemoveById(old(meals), id)
      ensures State() == AfterWrite(old(State()), written, None, Some(id), outcome)
    {
      written := RemoveById(meals, id);
      WriteMeals(written, None, Some(id), outcome);
    }

    /** Returns the list handed to storage, if any. */
    method PersistMealEntry(newEntry: MealEntry, now: int, outcome: WriteOutcome)
      returns (written: Option<seq<MealEntry>>)
      modifies this
      ensures State() == AfterPersist(old(State()), newEntry, now, outcome)
      ensures written == PersistWrite(old(State()), newEntry, now)
    {
      var fingerprint := Fingerprint(newEntry);
      if IsRecentRepeat(lastSavedFingerprint, fingerprint, now) {
        latestResult := Some(newEntry);
        return None;
      }
      var existing := FirstDuplicate(meals, newEntry);
      if existing.Some? {
        latestResult := Some(meals[existing.value]);
        return None;
      }
      var updatedMeals := meals + [newEntry];
      WriteMeals(updatedMeals, Some(newEntry), None, outcome);
      lastSavedFingerprint := Some(Marker(fingerprint, now));
      written := Some(updatedMeals);
    }

    method WriteMeals(updatedMeals: seq<MealEntry>, latest: Option<MealEntry>,
                      removedId: Option<string>, outcome: WriteOutcome)
      modifies this
      ensures State() == AfterWrite(old(State()), updatedMeals, latest, removedId, outcome)
    {
      match outcome {
        case Written =>
          meals := updatedMeals;
          if removedId.Some? && latestResult.Some? && latestResult.value.id == removedId.value {
            latestResult := None;
          } else {
            latestResult := latest;
          }
        case WriteFailed(message) =>
          error := message;
      }
    }
  }
}
