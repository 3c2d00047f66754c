/** The profile modal's controller (`useProfileModal`): whether the modal shows
    and which of its three tabs is active. The tab reset that the source delays by
    300 ms after closing happens at once here. */
module ProfileModalState {

  datatype Tab = Info | Health | Settings

  class ProfileModal {
    var isVisible: bool
    var activeTab: Tab

    /** The resting state: hidden, on the information tab. */
    predicate Closed()
      reads this
    {
      !isVisible && activeTab == Info
    }

    constructor ()
      ensures Closed()
    {
      isVisible := false;
      activeTab := Info;
    }

    /** `openProfile(tab = 'info')` */
    method Open(tab: Tab := Info)
      modifies this
      ensures isVisible && activeTab == tab
    {
      activeTab := tab;
      isVisible := true;
    }

    /** `closeProfile`: hidden, and back on the information tab. */
    method Close()
      modifies this
      ensures Closed()
    {
      isVisible := false;
      activeTab := Info;
    }

    /** `switchTab`: only the tab changes. */
    method SwitchTab(tab: Tab)
      modifies this
      ensures activeTab == tab && isVisible == old(isVisible)
    {
      activeTab := tab;
    }
  }

  /** Whatever tab was open, closing and reopening with no tab shows the
      information tab. */
  method ReopenShowsInfo(tab: Tab, other: Tab) returns (visible: bool, shown: Tab)
    ensures visible && shown == Info
  {
    var modal := new ProfileModal();
    modal.Open(tab);
    modal.SwitchTab(other);
    modal.Close();
    modal.Open();
    visible := modal.isVisible;
    shown := modal.activeTab;
  }
}
