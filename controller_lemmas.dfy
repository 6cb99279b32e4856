/** What the controller's steps guarantee over whole runs, and what goes wrong
    when App.tsx and Backup.tsx share the stored preference. */
module ControllerLemmas {
  import opened ThemeCore
  import opened Controller

  /** With no leaked listener, the OS holds exactly the last one if it is
      live and none otherwise. */
  lemma {:induction false} LiveCountNoLeak(subs: seq<Subscription>)
    requires NoLeak(subs)
    ensures LiveCount(subs) == if |subs| > 0 && subs[|subs| - 1].live then 1 else 0
  {
    if |subs| > 1 {
      var front := subs[..|subs| - 1];
      assert forall i :: 0 <= i < |front| ==> front[i] == subs[i];
      assert !front[|front| - 1].live;
      LiveCountNoLeak(front);
    } else if |subs| == 1 {
      assert subs[..0] == [];
    }
  }

  /** A mounted controller holds exactly one OS listener, whatever the
      preference: the source subscribes even for 'on' and 'off'. */
  lemma OneListenerWhileMounted(s: State)
    requires Mounted(s)
    ensures LiveCount(s.subscriptions) == 1
  {
    LiveCountNoLeak(s.subscriptions);
  }

  /** After unmount the OS holds no listener of this controller. */
  lemma NoListenerAfterUnmount(s: State)
    requires Mounted(s)
    ensures LiveCount(Unmount(s).subscriptions) == 0
  {
    var subs := Unmount(s).subscriptions;
    assert NoLeak(subs);
    LiveCountNoLeak(subs);
  }

  /** The theme is current, or the preference is a string this version does
      not recognise (then the OS listener ignores scheme changes). */
  predicate SyncedOrForeign(v: Version, s: State) {
    Synced(s) || !Recognised(v, s.preference)
  }

  lemma StepKeepsSyncedOrForeign(v: Version, s: State, e: Event)
    requires Mounted(s) && SyncedOrForeign(v, s)
    ensures SyncedOrForeign(v, Step(v, s, e))
  {
  }

  /** From a state whose theme is current (or whose preference is foreign),
      every run keeps it so: a recognised preference then always shows the
      theme the resolver gives for the current OS scheme. */
  lemma {:induction false} RunKeepsSyncedOrForeign(v: Version, s: State, events: seq<Event>)
    requires Mounted(s) && SyncedOrForeign(v, s)
    ensures SyncedOrForeign(v, Run(v, s, events))
    decreases events
  {
    if events != [] {
      StepKeepsSyncedOrForeign(v, s, events[0]);
      RunKeepsSyncedOrForeign(v, Step(v, s, events[0]), events[1..]);
    }
  }

  /** On a light OS (or one reporting no scheme) the mount state already
      shows the current theme, so every run from it keeps the invariant. */
  lemma LightStartupRunsSyncedOrForeign(v: Version, stored: map<string, string>, os: ColorScheme, events: seq<Event>)
    requires os != Dark
    ensures SyncedOrForeign(v, Run(v, Initial(v, stored, os), events))
  {
    RunKeepsSyncedOrForeign(v, Initial(v, stored, os), events);
  }

  /** On a dark OS the mount state is out of date (DarkStartupShowsLight);
      the first toggle or scheme change brings it up to date, and every run
      after that keeps the invariant. */
  lemma StartupSyncedOrForeignAfterFirstChange(
    v: Version, stored: map<string, string>, os: ColorScheme, e: Event, events: seq<Event>)
    requires !e.LoadPreference?
    ensures SyncedOrForeign(v, Run(v, Initial(v, stored, os), [e] + events))
  {
    var s := Initial(v, stored, os);
    var next := Step(v, s, e);
    assert Synced(next);
    assert ([e] + events)[1..] == events;
    RunKeepsSyncedOrForeign(v, next, events);
  }

  /** Unless the preference is exactly the follow value, OS scheme changes
      never touch the theme: not for 'on' or 'off', and not for a foreign
      string such as the other version's follow value. */
  lemma {:induction false} SchemeChangesIgnored(v: Version, s: State, events: seq<Event>)
    requires Mounted(s) && s.preference != v.FollowSystem()
    requires OnlySchemeChanges(events)
    ensures Run(v, s, events).theme == s.theme
    ensures Run(v, s, events).preference == s.preference
    decreases events
  {
    if events != [] {
      var next := Step(v, s, events[0]);
      assert OnlySchemeChanges(events[1..]) by {
        forall i | 0 <= i < |events[1..]| ensures events[1..][i].SchemeChange? {
          assert events[1..][i] == events[i + 1];
        }
      }
      SchemeChangesIgnored(v, next, events[1..]);
    }
  }

  /** With the follow value selected, the theme tracks every scheme change:
      after a non-empty run of them it is the one resolved from the last. */
  lemma {:induction false} FollowTracksScheme(v: Version, s: State, events: seq<Event>)
    requires Mounted(s) && s.preference == v.FollowSystem()
    requires OnlySchemeChanges(events) && events != []
    ensures Run(v, s, events).preference == s.preference
    ensures Run(v, s, events).theme == ResolveTheme(s.preference, events[|events| - 1].scheme)
    ensures Synced(Run(v, s, events))
    decreases events
  {
    var next := Step(v, s, events[0]);
    if |events| > 1 {
      assert OnlySchemeChanges(events[1..]) by {
        forall i | 0 <= i < |events[1..]| ensures events[1..][i].SchemeChange? {
          assert events[1..][i] == events[i + 1];
        }
      }
      FollowTracksScheme(v, next, events[1..]);
      assert events[1..][|events[1..]| - 1] == events[|events| - 1];
    } else {
      assert events[1..] == [];
    }
  }

  /** Picking the same preference twice is the same as picking it once: no
      second listener and the same theme. */
  lemma ToggleTwice(s: State, p: string, saved: bool)
    requires Mounted(s)
    ensures Toggle(Toggle(s, p, saved), p, saved) == Toggle(s, p, saved)
  {
  }

  /** A successful save followed by a load changes nothing. */
  lemma SaveThenLoad(s: State, p: string)
    requires Mounted(s)
    ensures Load(Toggle(s, p, true), false) == Toggle(s, p, true)
  {
  }

  /** A failed save followed by a later load (the one each effect run starts)
      brings back the previously stored string. */
  lemma FailedSaveThenLoad(s: State, p: string)
    requires Mounted(s) && StoredPreference(s).Some?
    ensures Load(Toggle(s, p, false), false).preference == StoredPreference(s).value
    ensures Synced(Load(Toggle(s, p, false), false))
  {
  }

  /** Startup with an empty store and a dark OS shows the light theme,
      although the preference is the follow value, until the first scheme
      change or user choice. */
  lemma DarkStartupShowsLight(v: Version)
    ensures Load(Initial(v, map[], Dark), false).theme == DefaultTheme
    ensures ResolveTheme(v.FollowSystem(), Dark) == DarkTheme
    ensures Synced(AppearanceChange(v, Load(Initial(v, map[], Dark), false), Dark))
  {
  }

  /** A stored 'on' shows dark on a light OS and holds no follow listener. */
  lemma StoredOnOverridesLightOs(v: Version, stored: map<string, string>)
    requires PreferenceKey in stored && stored[PreferenceKey] == "on"
    ensures Load(Initial(v, stored, Light), false).preference == "on"
    ensures Load(Initial(v, stored, Light), false).theme == DarkTheme
    ensures !Follows(v, Load(Initial(v, stored, Light), false).subscriptions)
  {
    var r := Load(Initial(v, stored, Light), false);
    assert r.subscriptions[|r.subscriptions| - 1].captured == "on";
    assert !Follows(v, r.subscriptions) by {
      forall i | 0 <= i < |r.subscriptions| && r.subscriptions[i].live
        ensures r.subscriptions[i].captured != v.FollowSystem()
      {
        assert i == |r.subscriptions| - 1;
      }
    }
  }

  /** The cross-version hazard. `other` saves its follow value; `v` starts on
      the same storage and loads it: the theme is resolved from the OS once
      and then never follows a scheme change again. */
  lemma {:induction false} ForeignFollowValueFreezes(
    v: Version, other: Version, a: State, os: ColorScheme, events: seq<Event>)
    requires v != other && Mounted(a)
    requires OnlySchemeChanges(events)
    ensures var b := Load(Initial(v, Toggle(a, other.FollowSystem(), true).stored, os), false);
      && b.preference == other.FollowSystem()
      && (b.theme.Dark() <==> os == Dark)
      && Run(v, b, events).theme == b.theme
  {
    var b := Load(Initial(v, Toggle(a, other.FollowSystem(), true).stored, os), false);
    assert b.preference == other.FollowSystem() != v.FollowSystem();
    SchemeChangesIgnored(v, b, events);
  }

  /** Concretely: App.tsx's stored 'followSystem' loaded by Backup.tsx on a
      light OS stays light after the OS turns dark. */
  lemma BackupIgnoresAppFollowValue(a: State)
    requires Mounted(a)
    ensures var b := Load(Initial(Backup, Toggle(a, "followSystem", true).stored, Light), false);
      Run(Backup, b, [SchemeChange(Dark)]).theme == DefaultTheme
      && ResolveTheme(b.preference, Dark) == DarkTheme
  {
    ForeignFollowValueFreezes(Backup, Current, a, Light, [SchemeChange(Dark)]);
  }
}
