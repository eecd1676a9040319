/** The global UI store: which repository is selected and whether the dark
    theme is on. `set` merges the given fields into the state in place. */
module UiStore {
  import opened Outcomes

  /** A snapshot of the store's two data fields. */
  datatype StoreState = StoreState(selectedRepo: Option<string>, isDarkMode: bool)

  /** The state the store is created with. */
  const InitialState: StoreState := StoreState(None, true)

  /** The state after `setSelectedRepo(repo)`. */
  function WithRepo(s: StoreState, repo: Option<string>): (r: StoreState)
    ensures r.selectedRepo == repo && r.isDarkMode == s.isDarkMode
  {
    s.(selectedRepo := repo)
  }

  /** The state after `toggleDarkMode()`. */
  function Toggled(s: StoreState): (r: StoreState)
    ensures r.isDarkMode != s.isDarkMode && r.selectedRepo == s.selectedRepo
  {
    s.(isDarkMode := !s.isDarkMode)
  }

  /** Selecting the same repository twice is selecting it once; the last
      selection wins. */
  lemma SelectIdempotent(s: StoreState, a: Option<string>, b: Option<string>)
    ensures WithRepo(WithRepo(s, a), a) == WithRepo(s, a)
    ensures WithRepo(WithRepo(s, a), b) == WithRepo(s, b)
  {
  }

  /** Toggling twice gives back the state toggled from. */
  lemma ToggleInvolution(s: StoreState)
    ensures Toggled(Toggled(s)) == s
  {
  }

  /** Selecting and toggling touch different fields, so their order does not
      matter. */
  lemma SelectToggleCommute(s: StoreState, repo: Option<string>)
    ensures WithRepo(Toggled(s), repo) == Toggled(WithRepo(s, repo))
  {
  }

  class Store {
    var selectedRepo: Option<string>
    var isDarkMode: bool

    /** The store's data fields as one value. */
    function State(): StoreState
      reads this
    {
      StoreState(selectedRepo, isDarkMode)
    }

    /** A fresh store: no repository selected, dark theme on. */
    constructor ()
      ensures State() == InitialState
      ensures selectedRepo == None && isDarkMode
    {
      selectedRepo := None;
      isDarkMode := true;
    }

    /** `setSelectedRepo(repo)`: overwrites the selection only. */
    method SetSelectedRepo(repo: Option<string>)
      modifies this
      ensures selectedRepo == repo && isDarkMode == old(isDarkMode)
      ensures State() == WithRepo(old(State()), repo)
    {
      selectedRepo := repo;
    }

    /** `toggleDarkMode()`: negates the theme flag only. */
    method ToggleDarkMode()
      modifies this
      ensures isDarkMode == !old(isDarkMode) && selectedRepo == old(selectedRepo)
      ensures State() == Toggled(old(State()))
    {
      isDarkMode := !isDarkMode;
    }
  }
}
