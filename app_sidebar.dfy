/** The application sidebar: which menu item is highlighted for the current
    path, and when the "Upgrade to pro" item is offered. */
module AppSidebar {
  import opened Wrappers

  datatype MenuItem = MenuItem(title: string, url: string)

  /** The sidebar's single group of items. */
  const MenuItems: seq<MenuItem> := [
    MenuItem("WorkFlows", "/workflows"),
    MenuItem("Credentials", "/credentials"),
    MenuItem("Executions", "/executions")
  ]

  /** The home item is active only on "/" itself; any other item whenever the
      path starts with its url. */
  function IsActive(url: string, pathname: string): (r: bool)
    ensures url == "/" ==> (r <==> pathname == "/")
    ensures url != "/" ==> (r <==> |url| <= |pathname| && pathname[..|url|] == url)
  {
    if url == "/" then pathname == "/" else url <= pathname
  }

  /** The prefix test does not respect path segments. */
  lemma PrefixIsNotSegmentAware()
    ensures IsActive("/workflows", "/workflowsX")
    ensures IsActive("/workflows", "/workflows/abc")
    ensures !IsActive("/workflows", "/workflow")
  {
  }

  /** No listed item is the home item, so all of them use the prefix test. */
  lemma ListedItemsArePrefixMatched(pathname: string)
    ensures forall i :: 0 <= i < |MenuItems| ==> MenuItems[i].url != "/"
    ensures forall i :: 0 <= i < |MenuItems| ==> (IsActive(MenuItems[i].url, pathname) <==> MenuItems[i].url <= pathname)
  {
  }

  /** Two prefixes of one path are prefixes of each other. */
  lemma {:induction false} PrefixesAreComparable(a: string, b: string, p: string)
    requires a <= p && b <= p
    ensures a <= b || b <= a
  {
  }

  /** Whatever the path, at most one listed item is highlighted. */
  lemma {:induction false} AtMostOneActive(pathname: string)
    ensures forall i, j :: 0 <= i < j < |MenuItems| && IsActive(MenuItems[i].url, pathname) ==>
      !IsActive(MenuItems[j].url, pathname)
  {
    forall i, j | 0 <= i < j < |MenuItems| && IsActive(MenuItems[i].url, pathname)
      ensures !IsActive(MenuItems[j].url, pathname)
    {
      var a, b := MenuItems[i].url, MenuItems[j].url;
      assert a[1] != b[1];
      if IsActive(b, pathname) {
        PrefixesAreComparable(a, b, pathname);
      }
    }
  }

  /** `hasActiveSubscription` is undefined until the customer state is known. */
  function ShowUpgrade(hasActiveSubscription: Option<bool>, isLoading: bool): (r: bool)
    ensures r <==> hasActiveSubscription != Some(true) && !isLoading
  {
    !(hasActiveSubscription == Some(true)) && !isLoading
  }

  /** The upgrade item never shows while the subscription query loads, nor
      to a subscriber. */
  lemma UpgradeHiddenFromSubscribersAndWhileLoading(hasActiveSubscription: Option<bool>, isLoading: bool)
    ensures isLoading ==> !ShowUpgrade(hasActiveSubscription, isLoading)
    ensures hasActiveSubscription == Some(true) ==> !ShowUpgrade(hasActiveSubscription, isLoading)
  {
  }
}
