/** The settings screen's handlers (components/Settings.tsx): category list
    editing and the theme toggle. Each handler is a transition of the app's
    state; deletion is modelled as already confirmed. */
module CategorySettings {
  import opened Types
  import opened Seqs
  import Ledger

  /** `addCategory`: append a non-empty name not yet in the list; otherwise
      nothing changes. The ledger is never touched. */
  function AddCategory(st: AppData, name: string): (r: AppData)
    ensures r.expenses == st.expenses
    ensures r.settings.(categories := st.settings.categories) == st.settings
    ensures name != "" && name !in st.settings.categories ==>
      r.settings.categories == st.settings.categories + [name]
    ensures name == "" || name in st.settings.categories ==> r == st
  {
    if name != "" && name !in st.settings.categories
    then st.(settings := st.settings.(categories := st.settings.categories + [name]))
    else st
  }

  /** Adding keeps the category list free of duplicates. */
  lemma AddCategoryKeepsDistinct(st: AppData, name: string)
    requires Distinct(st.settings.categories)
    ensures Distinct(AddCategory(st, name).settings.categories)
  {
    var c := st.settings.categories;
    if name != "" && name !in c {
      var r := c + [name];
      forall i, j | 0 <= i < j < |r|
        ensures r[i] != r[j]
      {
        if j == |c| {
          assert r[i] == c[i];
        }
      }
    }
  }

  predicate IsNot(name: string, c: string) {
    c != name
  }

  /** `deleteCategory`: every occurrence of the name leaves the list and the
      others stay; the ledger is untouched, so expenses keep the orphaned name. */
  function DeleteCategory(st: AppData, name: string): (r: AppData)
    ensures r.expenses == st.expenses
    ensures r.settings.(categories := st.settings.categories) == st.settings
    ensures name !in r.settings.categories
    ensures forall c :: c in r.settings.categories <==> c in st.settings.categories && c != name
    ensures multiset(r.settings.categories) == multiset(st.settings.categories)[name := 0]
  {
    var kept := Filter(st.settings.categories, c => IsNot(name, c));
    assert forall c :: multiset(kept)[c] == multiset(st.settings.categories)[name := 0][c];
    st.(settings := st.settings.(categories := kept))
  }

  /** Deleting keeps the relative order of the remaining labels: deleting
      from a prefix of the list gives a prefix of the result. */
  lemma DeleteCategoryKeepsOrder(st: AppData, name: string, k: nat)
    requires k <= |st.settings.categories|
    ensures
      var pre := st.(settings := st.settings.(categories := st.settings.categories[..k]));
      DeleteCategory(pre, name).settings.categories <= DeleteCategory(st, name).settings.categories
  {
    FilterPrefix(st.settings.categories, k, c => IsNot(name, c));
  }

  /** Deleting keeps the category list free of duplicates. */
  lemma DeleteCategoryKeepsDistinct(st: AppData, name: string)
    requires Distinct(st.settings.categories)
    ensures Distinct(DeleteCategory(st, name).settings.categories)
  {
    FilterKeepsDistinct(st.settings.categories, c => IsNot(name, c));
  }

  /** The guard of `saveEdit`: a name is being edited, the new value is
      non-empty and differs from it. Whether the new value already exists is
      not checked. */
  predicate EditApplies(editing: Option<string>, value: string) {
    editing.Some? && editing.value != "" && value != "" && value != editing.value
  }

  /** `saveEdit`: rewrite the edited name in place in the category list and
      issue the ledger rename with the same pair; otherwise a no-op. */
  function SaveEdit(st: AppData, editing: Option<string>, value: string): (r: AppData)
    ensures !EditApplies(editing, value) ==> r == st
    ensures EditApplies(editing, value) ==>
      && r.settings.(categories := st.settings.categories) == st.settings
      && |r.settings.categories| == |st.settings.categories|
      && (forall i :: 0 <= i < |st.settings.categories| ==>
            r.settings.categories[i] ==
              if st.settings.categories[i] == editing.value then value else st.settings.categories[i])
      && r.expenses == Ledger.RenameCategory(st.expenses, editing.value, value)
  {
    if EditApplies(editing, value) then
      var from := editing.value;
      var cats := Map(st.settings.categories, c => if c == from then value else c);
      AppData(st.settings.(categories := cats), Ledger.RenameCategory(st.expenses, from, value))
    else st
  }

  /** A rename to a name not already in the list keeps it duplicate-free. */
  lemma SaveEditKeepsDistinct(st: AppData, editing: Option<string>, value: string)
    requires Distinct(st.settings.categories)
    requires value !in st.settings.categories
    ensures Distinct(SaveEdit(st, editing, value).settings.categories)
  {
    var c := st.settings.categories;
    var r := SaveEdit(st, editing, value).settings.categories;
    if EditApplies(editing, value) {
      forall i, j | 0 <= i < j < |r|
        ensures r[i] != r[j]
      {
        assert c[i] != c[j];
      }
    }
  }

  /** Renaming "Food" to the existing "Transport" duplicates "Transport":
      the rename does not guard against an existing name. */
  lemma SaveEditCanDuplicate()
    ensures
      var st := AppData(UserSettings("22:00", true, "$", ["Food", "Transport"], Light), []);
      SaveEdit(st, Some("Food"), "Transport").settings.categories == ["Transport", "Transport"]
  {
  }

  /** The theme toggle: light and dark swap, nothing else changes. */
  function ToggleTheme(st: AppData): (r: AppData)
    ensures r.expenses == st.expenses
    ensures r.settings.(theme := st.settings.theme) == st.settings
    ensures r.settings.theme != st.settings.theme
  {
    st.(settings := st.settings.(theme := if st.settings.theme == Dark then Light else Dark))
  }

  /** Toggling twice is the identity. */
  lemma ToggleThemeTwice(st: AppData)
    ensures ToggleTheme(ToggleTheme(st)) == st
  {
  }
}
