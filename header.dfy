/** The page header's title (components/Header.tsx): a fixed title for each
    of the six views, and the home title for anything else. */
module PageHeader {

  /** `ViewState` */
  datatype View = Dashboard | Distribution | Ai | Analytics | CreateRelease | Library

  const VIEWS: seq<View> := [Dashboard, Distribution, Ai, Analytics, CreateRelease, Library]

  /** The string a view is written as in `ViewState`. */
  function ViewName(v: View): string {
    match v
    case Dashboard => "dashboard"
    case Distribution => "distribution"
    case Ai => "ai"
    case Analytics => "analytics"
    case CreateRelease => "create-release"
    case Library => "library"
  }

  const HOME_TITLE := "Artist Hub"

  /** `getTitle()`: the switch over `currentView`, which is passed as the
      string it is at run time, so values outside `ViewState` reach the
      default branch. */
  function Title(currentView: string): string {
    match currentView
    case "dashboard" => HOME_TITLE
    case "distribution" => "Network Infrastructure"
    case "ai" => "Reasoning Intelligence"
    case "analytics" => "Stream Analytics"
    case "create-release" => "DDEX 4.3 Ingestion"
    case "library" => "Catalog Management"
    case _ => HOME_TITLE
  }

  /** The title of a view, as the header shows it. */
  function ViewTitle(v: View): (t: string)
    ensures t == HOME_TITLE <==> v == Dashboard
    ensures v == CreateRelease ==> t == "DDEX 4.3 Ingestion"
  {
    Title(ViewName(v))
  }

  /** Every view has a title of its own. */
  lemma TitlesDistinct(v: View, w: View)
    ensures ViewTitle(v) == ViewTitle(w) <==> v == w
  {
  }

  /** A value that names no view gets the home title, the one the
      dashboard has. */
  lemma UnknownViewIsHome(currentView: string)
    requires forall v :: ViewName(v) != currentView
    ensures Title(currentView) == ViewTitle(Dashboard)
  {
    assert ViewName(Dashboard) != currentView && ViewName(Distribution) != currentView;
    assert ViewName(Ai) != currentView && ViewName(Analytics) != currentView;
    assert ViewName(CreateRelease) != currentView && ViewName(Library) != currentView;
  }

  /** The home title is shown exactly for the dashboard and for values that
      name no view. */
  lemma HomeTitleIff(currentView: string)
    ensures Title(currentView) == HOME_TITLE <==>
              currentView == ViewName(Dashboard) || forall v :: ViewName(v) != currentView
  {
    if v :| ViewName(v) == currentView {
      assert Title(currentView) == ViewTitle(v);
      assert v == Dashboard <==> currentView == ViewName(Dashboard);
    } else {
      UnknownViewIsHome(currentView);
    }
  }
}
