/** The community settings screen: two tabs, "profile" and "security"; the
    selected tab is highlighted and only its panel is rendered. */
module CommunitySettings {

  datatype Tab = Profile | Security

  /** The tabs in the order they are drawn. */
  const Tabs: seq<Tab> := [Profile, Security]

  datatype Variant = Success | NoVariant

  /** A tab button's variant: "success" for the selected tab, "none" for
      every other. */
  function ButtonVariant(selected: Tab, tab: Tab): (r: Variant)
    ensures r == Success <==> tab == selected
  {
    if selected == tab then Success else NoVariant
  }

  /** Exactly one of the drawn tab buttons is highlighted: the selected one. */
  lemma ExactlyOneHighlighted(selected: Tab)
    ensures selected in Tabs
    ensures forall i :: 0 <= i < |Tabs| ==> (ButtonVariant(selected, Tabs[i]) == Success <==> Tabs[i] == selected)
    ensures |set i | 0 <= i < |Tabs| && ButtonVariant(selected, Tabs[i]) == Success| == 1
  {
    var idx := if selected == Profile then 0 else 1;
    assert (set i | 0 <= i < |Tabs| && ButtonVariant(selected, Tabs[i]) == Success) == {idx};
  }

  /** The panel components a tab shows. */
  datatype Panel = ProfilePanel | SecurityPanel

  /** The panels rendered: the profile form under the profile tab, the
      security settings under the security tab. */
  function Panels(selected: Tab): (r: seq<Panel>)
    ensures |r| == 1
    ensures r[0] == ProfilePanel <==> selected == Profile
    ensures r[0] == SecurityPanel <==> selected == Security
  {
    (if selected == Profile then [ProfilePanel] else [])
    + (if selected == Security then [SecurityPanel] else [])
  }

  class Screen {
    var communitySetting: Tab

    constructor ()
      ensures communitySetting == Profile
      ensures Panels(communitySetting) == [ProfilePanel]
    {
      communitySetting := Profile;
    }

    /** Clicking a tab makes it the selected tab. */
    method Click(tab: Tab)
      modifies this
      ensures communitySetting == tab
    {
      communitySetting := tab;
    }
  }
}
