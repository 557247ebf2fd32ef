/**
 * The notifications slice: a list of preference categories, each with its own
 * list of sub-options, and the fetch flags. Option ids are unique only within
 * their parent, and nothing forces preference ids to be unique either.
 */
module Notifications {
  import opened Common

  /** `caption` is the source's `label` (a reserved word in Dafny). */
  datatype NotificationOption = NotificationOption(id: string, caption: string, isEnabled: bool)

  datatype NotificationPreference = NotificationPreference(
    id: string,
    title: string,
    description: string,
    isEnabled: bool,
    options: seq<NotificationOption>)

  datatype NotificationsState = NotificationsState(
    preferences: seq<NotificationPreference>,
    isLoading: bool,
    error: Option<string>)

  /** The actions the slice exports, one per reducer. */
  datatype NotificationsAction =
    | TogglePreference(preferenceId: string)
    | ToggleOption(preferenceId: string, optionId: string)
    | FetchPreferencesStart
    | FetchPreferencesSuccess(preferences: seq<NotificationPreference>)
    | FetchPreferencesFailure(message: string)

  // ---------------------------------------------------------------------------
  // First-match lookup by id, as the reducers' `find` does it

  function PreferenceIds(ps: seq<NotificationPreference>): seq<string> {
    seq(|ps|, i requires 0 <= i < |ps| => ps[i].id)
  }

  function OptionIds(os: seq<NotificationOption>): seq<string> {
    seq(|os|, i requires 0 <= i < |os| => os[i].id)
  }

  /** Position `k` holds `id` and no earlier position does. */
  predicate IsFirst(ids: seq<string>, id: string, k: int) {
    0 <= k < |ids| && ids[k] == id && forall j :: 0 <= j < k ==> ids[j] != id
  }

  /** The position of the first occurrence of `id`, if any. */
  function FirstIndexOf(ids: seq<string>, id: string): (r: Option<nat>)
    ensures r.None? <==> id !in ids
    ensures forall k :: r == Some(k) <==> IsFirst(ids, id, k)
  {
    if |ids| == 0 then None
    else if ids[0] == id then Some(0)
    else
      match FirstIndexOf(ids[1..], id)
      case None => None
      case Some(k) =>
        assert forall j :: 1 <= j <= k + 1 ==> ids[j] == ids[1..][j - 1];
        Some(k + 1)
  }

  /** The linear scan behind `find`, proved to return the first match. */
  method Find(ids: seq<string>, id: string) returns (r: Option<nat>)
    ensures r == FirstIndexOf(ids, id)
  {
    var k := 0;
    while k < |ids| && ids[k] != id
      invariant 0 <= k <= |ids|
      invariant forall j :: 0 <= j < k ==> ids[j] != id
    {
      k := k + 1;
    }
    r := if k < |ids| then Some(k) else None;
  }

  // ---------------------------------------------------------------------------
  // The two toggles

  /** Flips the enabled flag of the first preference whose id is `id`. */
  function TogglePreferenceIn(ps: seq<NotificationPreference>, id: string): (r: seq<NotificationPreference>)
    ensures |r| == |ps|
    // Only the first match changes, and only its own flag: its options are left alone.
    ensures forall k :: 0 <= k < |ps| ==>
      r[k] == if IsFirst(PreferenceIds(ps), id, k) then ps[k].(isEnabled := !ps[k].isEnabled) else ps[k]
    // An unknown id changes nothing.
    ensures id !in PreferenceIds(ps) ==> r == ps
  {
    match FirstIndexOf(PreferenceIds(ps), id)
    case None => ps
    case Some(i) => ps[i := ps[i].(isEnabled := !ps[i].isEnabled)]
  }

  /** Flips the enabled flag of the first option whose id is `id`. */
  function ToggleOptionAmong(os: seq<NotificationOption>, id: string): (r: seq<NotificationOption>)
    ensures |r| == |os|
    ensures forall m :: 0 <= m < |os| ==>
      r[m] == if IsFirst(OptionIds(os), id, m) then os[m].(isEnabled := !os[m].isEnabled) else os[m]
    ensures id !in OptionIds(os) ==> r == os
  {
    match FirstIndexOf(OptionIds(os), id)
    case None => os
    case Some(j) => os[j := os[j].(isEnabled := !os[j].isEnabled)]
  }

  /**
   * Flips the first option `optionId` of the first preference `preferenceId`;
   * nothing happens when either lookup misses.
   */
  function ToggleOptionIn(ps: seq<NotificationPreference>, preferenceId: string, optionId: string): (r: seq<NotificationPreference>)
    ensures |r| == |ps|
    // Only the first matching preference changes, and only in its options; its own flag stays.
    ensures forall k :: 0 <= k < |ps| ==>
      r[k] == if IsFirst(PreferenceIds(ps), preferenceId, k)
              then ps[k].(options := ToggleOptionAmong(ps[k].options, optionId))
              else ps[k]
    // A miss on either id changes nothing.
    ensures preferenceId !in PreferenceIds(ps) ==> r == ps
    ensures forall k :: IsFirst(PreferenceIds(ps), preferenceId, k) && optionId !in OptionIds(ps[k].options) ==> r == ps
  {
    match FirstIndexOf(PreferenceIds(ps), preferenceId)
    case None => ps
    case Some(i) =>
      match FirstIndexOf(OptionIds(ps[i].options), optionId)
      case None => ps
      case Some(j) =>
        var o := ps[i].options[j];
        ps[i := ps[i].(options := ps[i].options[j := o.(isEnabled := !o.isEnabled)])]
  }

  /** The slice's reducer. */
  function Reduce(s: NotificationsState, a: NotificationsAction): (r: NotificationsState)
    // The toggles touch the list only; the fetch reducers touch the flags and, on success, replace the list.
    ensures a.TogglePreference? ==> r == s.(preferences := TogglePreferenceIn(s.preferences, a.preferenceId))
    ensures a.ToggleOption? ==> r == s.(preferences := ToggleOptionIn(s.preferences, a.preferenceId, a.optionId))
    ensures a.FetchPreferencesStart? ==> r == s.(isLoading := true, error := None)
    ensures a.FetchPreferencesSuccess? ==> r == s.(preferences := a.preferences, isLoading := false)
    ensures a.FetchPreferencesFailure? ==> r == s.(isLoading := false, error := Some(a.message))
  {
    match a
    case TogglePreference(p) => s.(preferences := TogglePreferenceIn(s.preferences, p))
    case ToggleOption(p, o) => s.(preferences := ToggleOptionIn(s.preferences, p, o))
    case FetchPreferencesStart => s.(isLoading := true, error := None)
    case FetchPreferencesSuccess(ps) => s.(preferences := ps, isLoading := false)
    case FetchPreferencesFailure(m) => s.(isLoading := false, error := Some(m))
  }

  // ---------------------------------------------------------------------------
  // Properties of the toggles

  /** Toggling keeps every id where it was, so a second lookup finds the same record. */
  lemma TogglesKeepIds(ps: seq<NotificationPreference>, preferenceId: string, optionId: string)
    ensures PreferenceIds(TogglePreferenceIn(ps, preferenceId)) == PreferenceIds(ps)
    ensures PreferenceIds(ToggleOptionIn(ps, preferenceId, optionId)) == PreferenceIds(ps)
    ensures forall k :: 0 <= k < |ps| ==>
      OptionIds(ToggleOptionIn(ps, preferenceId, optionId)[k].options) == OptionIds(ps[k].options)
  {
  }

  /** Toggling a preference twice restores the original list. */
  lemma TogglePreferenceTwice(ps: seq<NotificationPreference>, id: string)
    ensures TogglePreferenceIn(TogglePreferenceIn(ps, id), id) == ps
  {
  }

  /** Toggling an option twice restores the original list. */
  lemma ToggleOptionTwice(ps: seq<NotificationPreference>, preferenceId: string, optionId: string)
    ensures ToggleOptionIn(ToggleOptionIn(ps, preferenceId, optionId), preferenceId, optionId) == ps
  {
    TogglesKeepIds(ps, preferenceId, optionId);
    forall k | 0 <= k < |ps| && IsFirst(PreferenceIds(ps), preferenceId, k)
      ensures ToggleOptionAmong(ToggleOptionAmong(ps[k].options, optionId), optionId) == ps[k].options
    {
      assert OptionIds(ToggleOptionAmong(ps[k].options, optionId)) == OptionIds(ps[k].options);
    }
  }

  /** Either toggle, dispatched twice with the same payload, leaves the whole slice as it was. */
  lemma ToggleTwiceRestores(s: NotificationsState, a: NotificationsAction)
    requires a.TogglePreference? || a.ToggleOption?
    ensures Reduce(Reduce(s, a), a) == s
  {
    if a.TogglePreference? {
      TogglePreferenceTwice(s.preferences, a.preferenceId);
    } else {
      ToggleOptionTwice(s.preferences, a.preferenceId, a.optionId);
    }
  }

  /** Toggling a preference does not cascade: no option's flag changes, in that preference or any other. */
  lemma TogglePreferenceNoCascade(ps: seq<NotificationPreference>, id: string, k: nat, m: nat)
    requires k < |ps| && m < |ps[k].options|
    ensures |TogglePreferenceIn(ps, id)[k].options| == |ps[k].options|
    ensures TogglePreferenceIn(ps, id)[k].options[m].isEnabled == ps[k].options[m].isEnabled
  {
  }

  // ---------------------------------------------------------------------------
  // The seeded preferences

  const InitialPreferences: seq<NotificationPreference> := [
    NotificationPreference("strikeouts", "Strikeout Alerts",
      "Get notifications when Yamamoto records a strikeout", true, [
        NotificationOption("strikeout-sound", "Custom strikeout sound", true),
        NotificationOption("strikeout-vibration", "Vibration feedback", true),
        NotificationOption("strikeout-milestones", "Only milestone strikeouts (5, 10, etc.)", false)]),
    NotificationPreference("games", "Game Notifications",
      "Get notifications about Yamamoto's upcoming and live games", true, [
        NotificationOption("game-start", "Game starting soon", true),
        NotificationOption("game-results", "Game results", true),
        NotificationOption("schedule-changes", "Schedule changes", true)]),
    NotificationPreference("news", "News & Updates",
      "Get the latest news and updates about Yamamoto", true, [
        NotificationOption("news-articles", "News articles", true),
        NotificationOption("video-content", "Video content", true),
        NotificationOption("social-media", "Social media updates", false)])
  ]

  const InitialState := NotificationsState(InitialPreferences, false, None)

  /** Switching off the seeded "games" category leaves its three options as they were. */
  lemma ToggleGamesFromInitial()
    ensures var r := Reduce(InitialState, TogglePreference("games")).preferences;
      |r| == 3 && !r[1].isEnabled && r[1].options == InitialPreferences[1].options &&
      r[0] == InitialPreferences[0] && r[2] == InitialPreferences[2]
  {
    assert IsFirst(PreferenceIds(InitialPreferences), "games", 1);
  }

  // ---------------------------------------------------------------------------
  // The slice as the store holds it

  class NotificationsSlice {
    var preferences: seq<NotificationPreference>
    var isLoading: bool
    var error: Option<string>

    function State(): NotificationsState
      reads this
    {
      NotificationsState(preferences, isLoading, error)
    }

    constructor ()
      ensures State() == InitialState
    {
      preferences := InitialPreferences;
      isLoading, error := false, None;
    }

    method ToggleNotificationPreference(preferenceId: string)
      modifies this
      ensures State() == Reduce(old(State()), TogglePreference(preferenceId))
    {
      var i := Find(PreferenceIds(preferences), preferenceId);
      if i.Some? {
        var p := preferences[i.value];
        preferences := preferences[i.value := p.(isEnabled := !p.isEnabled)];
      }
    }

    method ToggleNotificationOption(preferenceId: string, optionId: string)
      modifies this
      ensures State() == Reduce(old(State()), ToggleOption(preferenceId, optionId))
    {
      var i := Find(PreferenceIds(preferences), preferenceId);
      if i.Some? {
        var p := preferences[i.value];
        var j := Find(OptionIds(p.options), optionId);
        if j.Some? {
          var o := p.options[j.value];
          preferences := preferences[i.value := p.(options := p.options[j.value := o.(isEnabled := !o.isEnabled)])];
        }
      }
    }

    method FetchPreferencesStart()
      modifies this
      ensures State() == Reduce(old(State()), NotificationsAction.FetchPreferencesStart)
    {
      isLoading := true;
      error := None;
    }

    method FetchPreferencesSuccess(ps: seq<NotificationPreference>)
      modifies this
      ensures State() == Reduce(old(State()), NotificationsAction.FetchPreferencesSuccess(ps))
    {
      preferences := ps;
      isLoading := false;
    }

    method FetchPreferencesFailure(message: string)
      modifies this
      ensures State() == Reduce(old(State()), NotificationsAction.FetchPreferencesFailure(message))
    {
      isLoading := false;
      error := Some(message);
    }
  }
}
