/**
  app/settings/page.tsx: a client-side list of settings, started from sample data, with
  add (fresh id, to the front), edit, delete, search and the category badge. The time
  stamp `new Date()` would give is a parameter `now`.
*/
module SettingsPage {
  import opened Wrappers
  import opened Text
  import opened Lists
  import opened Badges

  datatype Setting = Setting(id: int, name: string, value: string, category: string,
                             description: string, lastUpdated: string)

  datatype SettingForm = SettingForm(name: string, value: string, category: string, description: string)

  function SettingId(s: Setting): int { s.id }

  const SampleSettings: seq<Setting> := [
    Setting(1, "Company Name", "PT Example Company", "General",
            "Company name that will be displayed " + "throughout the system", "2024-03-20 10:30"),
    Setting(2, "Email Notifications", "Enabled", "Notifications",
            "Email notification settings for system " + "activities and alerts", "2024-03-20 09:15"),
    Setting(3, "Session Timeout", "30 minutes", "Security",
            "User session timeout duration before " + "requiring re-authentication", "2024-03-19 15:45"),
    Setting(4, "Currency Format", "USD", "General",
            "Default currency format for displaying " + "prices and values", "2024-03-19 14:20"),
    Setting(5, "API Integration", "Active", "Integration",
            "External API integration status for " + "third-party services", "2024-03-18 11:30")
  ]

  /** The setting `{ id, ...formData, lastUpdated }` that `handleAdd` creates. */
  function NewSetting(ss: seq<Setting>, form: SettingForm, now: string): (s: Setting)
    ensures forall i :: 0 <= i < |ss| ==> ss[i].id < s.id
    ensures s.id >= 1 && KeyFree(ss, SettingId, s.id)
    ensures s.id == NextId(Keys(ss, SettingId))
  {
    var id := NextId(Keys(ss, SettingId));
    assert forall i :: 0 <= i < |ss| ==> SettingId(ss[i]) == Keys(ss, SettingId)[i];
    Setting(id, form.name, form.value, form.category, form.description, now)
  }

  /** `{ ...setting, ...formData, lastUpdated }`: the form's fields and a new time stamp, same id. */
  function EditedSetting(s: Setting, form: SettingForm, now: string): (r: Setting)
    ensures r.id == s.id
  {
    Setting(s.id, form.name, form.value, form.category, form.description, now)
  }

  /** The search test: name, category or value contains the term, ignoring case. */
  function MatchesSetting(term: string): Setting -> bool {
    (s: Setting) => MatchesTerm(s.name, term) || MatchesTerm(s.category, term) || MatchesTerm(s.value, term)
  }

  /** `filteredSettings` */
  function FilteredSettings(ss: seq<Setting>, term: string): (r: seq<Setting>)
    ensures |r| <= |ss| && IsSubsequence(r, ss)
    ensures forall s :: s in r <==> s in ss && MatchesSetting(term)(s)
  {
    Filter(ss, MatchesSetting(term))
  }

  /** An empty search shows every setting. */
  lemma EmptySearchShowsAll(ss: seq<Setting>)
    ensures FilteredSettings(ss, "") == ss
  {
    forall s | s in ss ensures MatchesSetting("")(s) {
      EmptyTermMatches(s.name);
    }
    FilterKeepsAll(ss, MatchesSetting(""));
  }

  /** The search ignores the case of the term. */
  lemma SearchIgnoresTermCase(ss: seq<Setting>, term: string)
    ensures FilteredSettings(ss, Upper(term)) == FilteredSettings(ss, term)
  {
    LowerOfUpper(term);
    FilterAgree(ss, MatchesSetting(Upper(term)), MatchesSetting(term));
  }

  /** `getCategoryBadgeStyle`: three categories have their own colour; General and any other are muted. */
  function CategoryBadge(category: string): (b: Badge)
    ensures category == "Security" <==> b == Red
    ensures category == "Notifications" <==> b == Blue
    ensures category == "Integration" <==> b == Purple
    ensures b == Red || b == Blue || b == Purple || b == Muted
  {
    if category == "Security" then Red
    else if category == "Notifications" then Blue
    else if category == "Integration" then Purple
    else Muted
  }

  class SettingList {
    var settings: seq<Setting>

    /** Setting ids are unique. */
    ghost predicate Valid()
      reads this
    {
      DistinctKeys(settings, SettingId)
    }

    constructor()
      ensures Valid() && settings == SampleSettings
    {
      settings := SampleSettings;
    }

    /** `handleAdd`: the new setting takes an id above every existing one and goes to the front. */
    method HandleAdd(form: SettingForm, now: string) returns (id: int)
      requires Valid()
      modifies this
      ensures Valid()
      ensures id >= 1 && KeyFree(old(settings), SettingId, id)
      ensures id == NextId(Keys(old(settings), SettingId))
      ensures settings == [NewSetting(old(settings), form, now)] + old(settings)
      ensures settings == [Setting(id, form.name, form.value, form.category, form.description, now)] + old(settings)
    {
      var s := NewSetting(settings, form, now);
      DistinctPrepend(s, settings, SettingId);
      settings := [s] + settings;
      id := s.id;
    }

    /** `handleEdit`: without a selection nothing changes; otherwise only the selected entry is overwritten. */
    method HandleEdit(selected: Option<int>, form: SettingForm, now: string)
      requires Valid()
      modifies this
      ensures Valid()
      ensures selected.None? ==> settings == old(settings)
      ensures |settings| == |old(settings)|
      ensures selected.Some? ==> forall i :: 0 <= i < |settings| ==>
                settings[i] == if old(settings)[i].id == selected.value
                               then EditedSetting(old(settings)[i], form, now) else old(settings)[i]
    {
      if selected.None? {
        return;
      }
      var current := settings;
      var edited := seq(|current|, i requires 0 <= i < |current| =>
                          if current[i].id == selected.value then EditedSetting(current[i], form, now)
                          else current[i]);
      assert forall i :: 0 <= i < |current| ==> SettingId(edited[i]) == SettingId(current[i]);
      settings := edited;
    }

    /** `handleDelete`: after confirmation the entries with that id are gone, the others keep their order. */
    method HandleDelete(id: int, confirmed: bool)
      requires Valid()
      modifies this
      ensures Valid()
      ensures confirmed ==> settings == RemoveKey(old(settings), SettingId, id)
      ensures !confirmed ==> settings == old(settings)
    {
      if confirmed {
        DistinctRemoveKey(settings, SettingId, id, SettingId);
        settings := RemoveKey(settings, SettingId, id);
      }
    }
  }
}
