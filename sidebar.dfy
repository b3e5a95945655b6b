/** The dashboard's side menu: which entry is highlighted and which submenu
    is expanded for the current route. */
module Sidebar {
  import opened Common
  import opened Lists

  /** A menu entry by its key; a submenu also lists its children's keys.
      Icons and labels are not part of this model. */
  datatype MenuItem = MenuItem(key: string, children: Option<seq<string>>)

  /** `item.children?.some((sub) => sub.key === path)` */
  predicate HasChild(item: MenuItem, path: string) {
    item.children.Some? && path in item.children.value
  }

  /** The test of the first `find`: the entry itself or one of its children
      has the path as key. */
  predicate Covers(item: MenuItem, path: string) {
    item.key == path || HasChild(item, path)
  }

  /** The key tree of `menuItems`. */
  const MenuItems: seq<MenuItem> := [
    MenuItem("/", None),
    MenuItem("/project-management", None),
    MenuItem("service-management", Some(["/service-management/categories", "/service-management/subcategories"])),
    MenuItem("/appointment", None),
    MenuItem("/our-projects", None),
    MenuItem("/users", None),
    MenuItem("subMenuSetting", Some(["/personal-information", "/change-password", "/terms-and-condition", "/privacy-policy", "/available-time"])),
    MenuItem("/logout", None)
  ]

  /** The highlighted key and the expanded submenus. */
  datatype MenuState = MenuState(selectedKey: string, openKeys: seq<string>)

  /** What the route effect leaves behind for `path`, starting from `s`. */
  function AfterRoute(items: seq<MenuItem>, path: string, s: MenuState): MenuState {
    var found := FindIndex(items, (item: MenuItem) => Covers(item, path));
    if found.None? then s
    else if items[found.value].children.Some? then MenuState(path, [items[found.value].key])
    else
      var parent := FindIndex(items, (item: MenuItem) => HasChild(item, path));
      if parent.Some? then MenuState(path, [items[parent.value].key]) else MenuState(path, s.openKeys)
  }

  /** A path that is neither an entry's key nor a child's key changes
      nothing. */
  lemma UnknownPathKeepsState(items: seq<MenuItem>, path: string, s: MenuState)
    requires forall i :: 0 <= i < |items| ==> !Covers(items[i], path)
    ensures AfterRoute(items, path, s) == s
  {
  }

  /** A path that is an entry's or a child's key becomes the selected key. */
  lemma KnownPathSelected(items: seq<MenuItem>, path: string, s: MenuState, k: nat)
    requires k < |items| && Covers(items[k], path)
    ensures AfterRoute(items, path, s).selectedKey == path
  {
    var found := FindIndex(items, (item: MenuItem) => Covers(item, path));
    assert Covers(items[k], path);
  }

  /** A child's path opens exactly the submenu holding it, provided no
      earlier entry claims the same path. */
  lemma ChildPathOpensParent(items: seq<MenuItem>, path: string, s: MenuState, k: nat)
    requires k < |items| && HasChild(items[k], path)
    requires forall j :: 0 <= j < k ==> !Covers(items[j], path)
    ensures AfterRoute(items, path, s) == MenuState(path, [items[k].key])
  {
    var found := FindIndex(items, (item: MenuItem) => Covers(item, path));
    assert Covers(items[k], path);
    assert found == Some(k);
  }

  /** A top-level route opens no submenu: the expanded submenus stay as the
      user left them. */
  lemma LeafPathKeepsOpenKeys(items: seq<MenuItem>, path: string, s: MenuState, k: nat)
    requires k < |items| && items[k].key == path && items[k].children.None?
    requires forall j :: 0 <= j < |items| ==> !HasChild(items[j], path)
    requires forall j :: 0 <= j < k ==> items[j].key != path
    ensures AfterRoute(items, path, s) == MenuState(path, s.openKeys)
  {
    var found := FindIndex(items, (item: MenuItem) => Covers(item, path));
    assert Covers(items[k], path);
    assert found == Some(k);
  }

  /** On the real menu, "/available-time" highlights that entry and expands
      the settings submenu and nothing else. */
  lemma AvailableTimeOpensSettings(s: MenuState)
    ensures AfterRoute(MenuItems, "/available-time", s) == MenuState("/available-time", ["subMenuSetting"])
  {
    var path := "/available-time";
    assert HasChild(MenuItems[6], path) by {
      assert MenuItems[6].children.value[4] == path;
    }
    forall j | 0 <= j < 6
      ensures !Covers(MenuItems[j], path)
    {
    }
    ChildPathOpensParent(MenuItems, path, s, 6);
  }

  /** On the real menu every child route highlights itself and expands
      exactly its own submenu. */
  lemma EveryChildOpensItsSubmenu(s: MenuState, k: nat, path: string)
    requires k < |MenuItems| && HasChild(MenuItems[k], path)
    ensures AfterRoute(MenuItems, path, s) == MenuState(path, [MenuItems[k].key])
  {
    assert k == 2 || k == 6;
    forall j | 0 <= j < k
      ensures !Covers(MenuItems[j], path)
    {
      assert |path| > 1 && path[0] == '/';
      if path in MenuItems[2].children.value {
        assert path[1] == 's';
      }
    }
    ChildPathOpensParent(MenuItems, path, s, k);
  }

  /** On the real menu every top-level route highlights itself and leaves
      the expanded submenus alone, since no submenu lists it as a child. */
  lemma EveryLeafKeepsOpenKeys(s: MenuState, k: nat)
    requires k < |MenuItems| && MenuItems[k].children.None?
    ensures AfterRoute(MenuItems, MenuItems[k].key, s) == MenuState(MenuItems[k].key, s.openKeys)
  {
    var path := MenuItems[k].key;
    forall j | 0 <= j < |MenuItems|
      ensures !HasChild(MenuItems[j], path)
    {
    }
    forall j | 0 <= j < k
      ensures MenuItems[j].key != path
    {
    }
    LeafPathKeepsOpenKeys(MenuItems, path, s, k);
  }

  /** The menu's state: `selectedKey` and `openKeys` of the component. */
  class SidebarMenu {
    var selectedKey: string
    var openKeys: seq<string>

    constructor()
      ensures selectedKey == "" && openKeys == []
    {
      selectedKey := "";
      openKeys := [];
    }

    function State(): MenuState
      reads this
    {
      MenuState(selectedKey, openKeys)
    }

    /** The effect run whenever the route's path changes. */
    method RouteChanged(path: string)
      modifies this
      ensures State() == AfterRoute(MenuItems, path, old(State()))
    {
      var found := FindIndex(MenuItems, (item: MenuItem) => Covers(item, path));
      if found.Some? {
        var selected := MenuItems[found.value];
        selectedKey := path;
        if selected.children.Some? {
          openKeys := [selected.key];
        } else {
          var parent := FindIndex(MenuItems, (item: MenuItem) => HasChild(item, path));
          if parent.Some? {
            openKeys := [MenuItems[parent.value].key];
          }
        }
      }
    }

    /** `handleOpenChange`: the menu reports the submenus now expanded. */
    method OpenChange(keys: seq<string>)
      modifies this
      ensures openKeys == keys && selectedKey == old(selectedKey)
    {
      openKeys := keys;
    }
  }
}
