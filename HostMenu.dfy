/** The host window's plugin menu (Host/HostWindow.cpp): the in-process
    plugins numbered from 1, the known plugins' tree numbered from a fixed
    base, the lookup from a chosen menu ID back to a plugin description, the
    dispatch of a chosen menu ID, and the plugins a file drop creates. The
    menus themselves are values; the windows, dialogs and settings file are
    not modelled. */
module HostMenu {
  import opened Wrappers
  import opened PluginDescriptions
  import PluginFactory
  import PluginProxy

  /** The first menu ID given to a known (not in-process) plugin. */
  const MenuIdBase: int := 0x324503f4

  /** A folder of the known plugin list's tree, as the library builds it. */
  datatype PluginTree = PluginTree(folder: string, subFolders: seq<PluginTree>, plugins: seq<Description>)

  /** A popup menu entry. */
  datatype MenuEntry = Item(id: int, text: string) | SubMenu(name: string, entries: seq<MenuEntry>) | Separator

  datatype SortMethod = DefaultOrder | SortAlphabetically | SortByCategory | SortByManufacturer | SortByFileSystemLocation

  /** How many plugins in the list carry exactly this name. */
  function Occurrences(plugins: seq<Description>, name: string): (n: nat)
    ensures n <= |plugins|
  {
    if plugins == [] then 0
    else Occurrences(plugins[..|plugins| - 1], name) + (if plugins[|plugins| - 1].name == name then 1 else 0)
  }

  /** A name that occurs in the list occurs at least once. */
  lemma {:induction false} OccursAtLeastOnce(plugins: seq<Description>, i: nat)
    requires i < |plugins|
    ensures Occurrences(plugins, plugins[i].name) >= 1
  {
    if i < |plugins| - 1 {
      OccursAtLeastOnce(plugins[..|plugins| - 1], i);
    }
  }

  /** containsDuplicateNames: count the matches and stop at the second. */
  method ContainsDuplicateNames(plugins: seq<Description>, name: string) returns (r: bool)
    ensures r <==> Occurrences(plugins, name) >= 2
  {
    var matches := 0;
    for k := 0 to |plugins|
      invariant matches == Occurrences(plugins[..k], name) && matches <= 1
    {
      assert plugins[..k + 1][..k] == plugins[..k];
      if plugins[k].name == name {
        matches := matches + 1;
        if matches > 1 {
          assert plugins[..k + 1] == plugins[..k + 1];
          OccurrencesOfPrefix(plugins, k + 1, name);
          return true;
        }
      }
    }
    assert plugins[..|plugins|] == plugins;
    return false;
  }

  /** A prefix has no more occurrences than the whole list. */
  lemma {:induction false} OccurrencesOfPrefix(plugins: seq<Description>, k: nat, name: string)
    requires k <= |plugins|
    ensures Occurrences(plugins[..k], name) <= Occurrences(plugins, name)
    decreases |plugins|
  {
    if k < |plugins| {
      assert plugins[..|plugins| - 1][..k] == plugins[..k];
      OccurrencesOfPrefix(plugins[..|plugins| - 1], k, name);
    } else {
      assert plugins[..k] == plugins;
    }
  }

  /** The text of a known plugin's item: its name, with its format added when
      another plugin in the same folder has the same name. */
  function Label(folderPlugins: seq<Description>, p: Description): (text: string)
    ensures Occurrences(folderPlugins, p.name) < 2 ==> text == p.name
    ensures Occurrences(folderPlugins, p.name) >= 2 ==> text == p.name + " (" + p.pluginFormatName + ")"
  {
    if Occurrences(folderPlugins, p.name) >= 2 then p.name + " (" + p.pluginFormatName + ")" else p.name
  }

  /** Two same-named plugins in one folder get different texts when their
      formats differ. */
  lemma DuplicatesTellFormatsApart(folderPlugins: seq<Description>, i: nat, j: nat)
    requires i < |folderPlugins| && j < |folderPlugins|
    requires folderPlugins[i].name == folderPlugins[j].name
    requires folderPlugins[i].pluginFormatName != folderPlugins[j].pluginFormatName
    ensures Label(folderPlugins, folderPlugins[i]) != Label(folderPlugins, folderPlugins[j])
  {
    var p, q := folderPlugins[i], folderPlugins[j];
    var name := p.name;
    assert i != j;
    OccursAtLeastOnce(folderPlugins, i);
    TwoIndicesTwoOccurrences(folderPlugins, i, j);
    var a, b := Label(folderPlugins, p), Label(folderPlugins, q);
    var n := |name| + 2;
    if |p.pluginFormatName| != |q.pluginFormatName| {
      assert |a| != |b|;
    } else {
      assert a[n..n + |p.pluginFormatName|] == p.pluginFormatName;
      assert b[n..n + |p.pluginFormatName|] == q.pluginFormatName;
    }
  }

  /** Two different positions with the same name make two occurrences. */
  lemma {:induction false} TwoIndicesTwoOccurrences(plugins: seq<Description>, i: nat, j: nat)
    requires i < |plugins| && j < |plugins| && i != j
    requires plugins[i].name == plugins[j].name
    ensures Occurrences(plugins, plugins[i].name) >= 2
  {
    var last := |plugins| - 1;
    var init := plugins[..last];
    if i == last {
      OccursAtLeastOnce(init, j);
    } else if j == last {
      OccursAtLeastOnce(init, i);
    } else {
      TwoIndicesTwoOccurrences(init, i, j);
    }
  }

  /** The plugins of a tree in menu order: every subfolder's, then the
      folder's own. */
  function Listed(t: PluginTree): seq<Description>
    decreases t
  {
    ListedAll(t.subFolders) + t.plugins
  }

  function ListedAll(ts: seq<PluginTree>): seq<Description>
    decreases ts
  {
    if ts == [] then [] else ListedAll(ts[..|ts| - 1]) + Listed(ts[|ts| - 1])
  }

  /** The item texts of a folder's own plugins. */
  function PluginLabels(plugins: seq<Description>): (texts: seq<string>)
    ensures |texts| == |plugins|
    ensures forall j | 0 <= j < |plugins| :: texts[j] == Label(plugins, plugins[j])
  {
    seq(|plugins|, j requires 0 <= j < |plugins| => Label(plugins, plugins[j]))
  }

  /** The item texts of a tree, in the order of `Listed`. */
  function Labels(t: PluginTree): (texts: seq<string>)
    ensures |texts| == |Listed(t)|
    decreases t
  {
    LabelsAll(t.subFolders) + PluginLabels(t.plugins)
  }

  function LabelsAll(ts: seq<PluginTree>): (texts: seq<string>)
    ensures |texts| == |ListedAll(ts)|
    decreases ts
  {
    if ts == [] then [] else LabelsAll(ts[..|ts| - 1]) + Labels(ts[|ts| - 1])
  }

  /** The (ID, text) pairs of all items of a menu, submenus included, in order. */
  function ItemsOf(es: seq<MenuEntry>): seq<(int, string)>
    decreases es
  {
    if es == [] then [] else ItemsOf(es[..|es| - 1]) + EntryItems(es[|es| - 1])
  }

  function EntryItems(e: MenuEntry): seq<(int, string)>
    decreases e
  {
    match e
    case Item(id, text) => [(id, text)]
    case SubMenu(_, es) => ItemsOf(es)
    case Separator => []
  }

  lemma ItemsOfSnoc(es: seq<MenuEntry>, e: MenuEntry)
    ensures ItemsOf(es + [e]) == ItemsOf(es) + EntryItems(e)
  {
    assert (es + [e])[..|es|] == es;
  }

  /** Texts numbered consecutively from `first`. */
  function Numbered(first: int, texts: seq<string>): (items: seq<(int, string)>)
    ensures |items| == |texts|
  {
    seq(|texts|, k requires 0 <= k < |texts| => (first + k, texts[k]))
  }

  lemma NumberedAppend(first: int, a: seq<string>, b: seq<string>)
    ensures Numbered(first, a + b) == Numbered(first, a) + Numbered(first + |a|, b)
  {
    var l, r := Numbered(first, a + b), Numbered(first, a) + Numbered(first + |a|, b);
    assert |l| == |r|;
    forall k | 0 <= k < |l| ensures l[k] == r[k] {
      if k >= |a| {
        assert r[k] == Numbered(first + |a|, b)[k - |a|];
      }
    }
  }

  /** The first `i` entries are the submenus of the first `i` subfolders. */
  predicate SubMenusOf(m: seq<MenuEntry>, subFolders: seq<PluginTree>, i: nat)
  {
    i <= |m| && i <= |subFolders| &&
    forall k | 0 <= k < i :: m[k].SubMenu? && m[k].name == subFolders[k].folder
  }

  /** The entries from `from` on are items. */
  predicate ItemsFrom(m: seq<MenuEntry>, from: nat)
  {
    forall k | from <= k < |m| :: m[k].Item?
  }

  lemma AllSnoc(ts: seq<PluginTree>, i: nat)
    requires i < |ts|
    ensures ListedAll(ts[..i + 1]) == ListedAll(ts[..i]) + Listed(ts[i])
    ensures LabelsAll(ts[..i + 1]) == LabelsAll(ts[..i]) + Labels(ts[i])
  {
    assert ts[..i + 1][..i] == ts[..i];
  }

  /** addToMenu after `i` turns of its subfolder loop. */
  ghost predicate SubFoldersDone(tree: PluginTree, addedIn: seq<Description>, i: nat, m: seq<MenuEntry>, added: seq<Description>)
  {
    i <= |tree.subFolders| &&
    added == addedIn + ListedAll(tree.subFolders[..i]) &&
    ItemsOf(m) == Numbered(MenuIdBase + |addedIn|, LabelsAll(tree.subFolders[..i])) &&
    |m| == i && SubMenusOf(m, tree.subFolders, i)
  }

  /** addToMenu after its subfolder loop and `j` turns of its plugin loop. */
  ghost predicate PluginsDone(tree: PluginTree, addedIn: seq<Description>, j: nat, m: seq<MenuEntry>, added: seq<Description>)
  {
    j <= |tree.plugins| &&
    added == addedIn + ListedAll(tree.subFolders) + tree.plugins[..j] &&
    ItemsOf(m) == Numbered(MenuIdBase + |addedIn|, LabelsAll(tree.subFolders) + PluginLabels(tree.plugins)[..j]) &&
    |m| == |tree.subFolders| + j &&
    SubMenusOf(m, tree.subFolders, |tree.subFolders|) && ItemsFrom(m, |tree.subFolders|)
  }

  /** addToMenu: a submenu for every subfolder, each filled recursively, then
      an item for every plugin of the folder. Each plugin is appended to
      `addedIn` and its item gets the base plus its position there, so the
      k-th appended plugin is chosen by ID base + k. */
  method AddToMenu(tree: PluginTree, addedIn: seq<Description>) returns (m: seq<MenuEntry>, added: seq<Description>)
    ensures added == addedIn + Listed(tree)
    ensures ItemsOf(m) == Numbered(MenuIdBase + |addedIn|, Labels(tree))
    ensures |m| == |tree.subFolders| + |tree.plugins|
    ensures SubMenusOf(m, tree.subFolders, |tree.subFolders|) && ItemsFrom(m, |tree.subFolders|)
    decreases tree
  {
    m, added := [], addedIn;
    SubFoldersStarted(tree, addedIn);
    for i := 0 to |tree.subFolders|
      invariant SubFoldersDone(tree, addedIn, i, m, added)
    {
      m, added := AddSubMenu(tree, addedIn, i, m, added);
    }
    SubFoldersFinished(tree, addedIn, m, added);
    for j := 0 to |tree.plugins|
      invariant PluginsDone(tree, addedIn, j, m, added)
    {
      m, added := AddPluginItem(tree, addedIn, j, m, added);
    }
    PluginsFinished(tree, addedIn, m, added);
  }

  lemma SubFoldersStarted(tree: PluginTree, addedIn: seq<Description>)
    ensures SubFoldersDone(tree, addedIn, 0, [], addedIn)
  {
    assert tree.subFolders[..0] == [];
  }

  lemma SubFoldersFinished(tree: PluginTree, addedIn: seq<Description>, m: seq<MenuEntry>, added: seq<Description>)
    requires SubFoldersDone(tree, addedIn, |tree.subFolders|, m, added)
    ensures PluginsDone(tree, addedIn, 0, m, added)
  {
    assert tree.subFolders[..|tree.subFolders|] == tree.subFolders;
    assert tree.plugins[..0] == [] && PluginLabels(tree.plugins)[..0] == [];
    assert LabelsAll(tree.subFolders) + [] == LabelsAll(tree.subFolders);
    assert addedIn + ListedAll(tree.subFolders) + [] == addedIn + ListedAll(tree.subFolders);
  }

  lemma PluginsFinished(tree: PluginTree, addedIn: seq<Description>, m: seq<MenuEntry>, added: seq<Description>)
    requires PluginsDone(tree, addedIn, |tree.plugins|, m, added)
    ensures added == addedIn + Listed(tree)
    ensures ItemsOf(m) == Numbered(MenuIdBase + |addedIn|, Labels(tree))
    ensures |m| == |tree.subFolders| + |tree.plugins|
    ensures SubMenusOf(m, tree.subFolders, |tree.subFolders|) && ItemsFrom(m, |tree.subFolders|)
  {
    var ps := tree.plugins;
    assert ps[..|ps|] == ps;
    assert PluginLabels(ps)[..|ps|] == PluginLabels(ps);
    assert Listed(tree) == ListedAll(tree.subFolders) + ps;
    assert addedIn + ListedAll(tree.subFolders) + ps == addedIn + (ListedAll(tree.subFolders) + ps);
    assert Labels(tree) == LabelsAll(tree.subFolders) + PluginLabels(ps);
  }

  /** One turn of addToMenu's subfolder loop. */
  method AddSubMenu(tree: PluginTree, ghost addedIn: seq<Description>, i: nat, m0: seq<MenuEntry>, added0: seq<Description>)
    returns (m: seq<MenuEntry>, added: seq<Description>)
    requires i < |tree.subFolders| && SubFoldersDone(tree, addedIn, i, m0, added0)
    ensures SubFoldersDone(tree, addedIn, i + 1, m, added)
    decreases tree, 0
  {
    var sub := tree.subFolders[i];
    var subMenu;
    subMenu, added := AddToMenu(sub, added0);
    m := m0 + [SubMenu(sub.folder, subMenu)];
    SubMenuTurn(tree, addedIn, i, m0, added0, subMenu, added);
  }

  lemma SubMenuTurn(tree: PluginTree, addedIn: seq<Description>, i: nat, m0: seq<MenuEntry>, added0: seq<Description>,
                    subMenu: seq<MenuEntry>, added: seq<Description>)
    requires i < |tree.subFolders| && SubFoldersDone(tree, addedIn, i, m0, added0)
    requires added == added0 + Listed(tree.subFolders[i])
    requires ItemsOf(subMenu) == Numbered(MenuIdBase + |added0|, Labels(tree.subFolders[i]))
    ensures SubFoldersDone(tree, addedIn, i + 1, m0 + [SubMenu(tree.subFolders[i].folder, subMenu)], added)
  {
    var ts := tree.subFolders;
    AllSnoc(ts, i);
    Associative(addedIn, ListedAll(ts[..i]), Listed(ts[i]));
    assert |added0| == |addedIn| + |LabelsAll(ts[..i])|;
    SubMenuAppended(ts, i, m0, subMenu, MenuIdBase + |addedIn|);
    var m := m0 + [SubMenu(ts[i].folder, subMenu)];
    assert forall k | 0 <= k < i :: m[k] == m0[k];
  }

  lemma Associative<T>(a: seq<T>, b: seq<T>, c: seq<T>)
    ensures (a + b) + c == a + (b + c)
  {
  }

  /** The items of two menus joined by a separator are those of the first,
      then those of the second. */
  lemma MenuJoined(first: seq<MenuEntry>, second: seq<MenuEntry>, items: seq<(int, string)>)
    requires ItemsOf(second) == items
    ensures ItemsOf(first + [Separator] + second) == ItemsOf(first) + items
  {
    ItemsOfSnoc(first, Separator);
    assert ItemsOf(first + [Separator]) == ItemsOf(first) + [];
    ItemsOfAppend(first + [Separator], second);
  }

  /** The items of a menu grown by the submenu of the next subfolder. */
  lemma SubMenuAppended(ts: seq<PluginTree>, i: nat, m0: seq<MenuEntry>, subMenu: seq<MenuEntry>, first: int)
    requires i < |ts|
    requires ItemsOf(m0) == Numbered(first, LabelsAll(ts[..i]))
    requires ItemsOf(subMenu) == Numbered(first + |LabelsAll(ts[..i])|, Labels(ts[i]))
    ensures ItemsOf(m0 + [SubMenu(ts[i].folder, subMenu)]) == Numbered(first, LabelsAll(ts[..i + 1]))
  {
    AllSnoc(ts, i);
    ItemsOfSnoc(m0, SubMenu(ts[i].folder, subMenu));
    NumberedAppend(first, LabelsAll(ts[..i]), Labels(ts[i]));
  }

  /** One turn of addToMenu's plugin loop: the text, with the format added
      for a duplicated name, and the ID from the plugin's position. */
  method AddPluginItem(tree: PluginTree, ghost addedIn: seq<Description>, j: nat, m0: seq<MenuEntry>, added0: seq<Description>)
    returns (m: seq<MenuEntry>, added: seq<Description>)
    requires j < |tree.plugins| && PluginsDone(tree, addedIn, j, m0, added0)
    ensures PluginsDone(tree, addedIn, j + 1, m, added)
  {
    var plugin := tree.plugins[j];
    var name := plugin.name;
    var duplicated := ContainsDuplicateNames(tree.plugins, name);
    if duplicated {
      name := name + " (" + plugin.pluginFormatName + ")";
    }
    added := added0 + [plugin];
    var menuID := |added| - 1 + MenuIdBase;
    m := m0 + [Item(menuID, name)];
    PluginTurn(tree, addedIn, j, m0, added0, name);
  }

  lemma PluginTurn(tree: PluginTree, addedIn: seq<Description>, j: nat, m0: seq<MenuEntry>, added0: seq<Description>, name: string)
    requires j < |tree.plugins| && PluginsDone(tree, addedIn, j, m0, added0)
    requires name == Label(tree.plugins, tree.plugins[j])
    ensures PluginsDone(tree, addedIn, j + 1, m0 + [Item(|added0| + MenuIdBase, name)], added0 + [tree.plugins[j]])
  {
    var before := LabelsAll(tree.subFolders);
    var m, added := m0 + [Item(|added0| + MenuIdBase, name)], added0 + [tree.plugins[j]];
    assert tree.plugins[..j + 1] == tree.plugins[..j] + [tree.plugins[j]];
    Associative(addedIn + ListedAll(tree.subFolders), tree.plugins[..j], [tree.plugins[j]]);
    assert A: added == addedIn + ListedAll(tree.subFolders) + tree.plugins[..j + 1];
    assert |added0| == |addedIn| + |before| + j;
    ItemAppended(m0, before, tree.plugins, j, MenuIdBase + |addedIn|, name);
    assert B: ItemsOf(m) == Numbered(MenuIdBase + |addedIn|, before + PluginLabels(tree.plugins)[..j + 1]);
    assert forall k | 0 <= k < |m0| :: m[k] == m0[k];
    assert C: SubMenusOf(m, tree.subFolders, |tree.subFolders|);
    assert D: ItemsFrom(m, |tree.subFolders|);
  }

  /** The items of a menu grown by the item of the folder's next plugin. */
  lemma ItemAppended(m0: seq<MenuEntry>, before: seq<string>, plugins: seq<Description>, j: nat, first: int, text: string)
    requires j < |plugins| && text == Label(plugins, plugins[j])
    requires ItemsOf(m0) == Numbered(first, before + PluginLabels(plugins)[..j])
    ensures ItemsOf(m0 + [Item(first + |before| + j, text)]) == Numbered(first, before + PluginLabels(plugins)[..j + 1])
  {
    var labels := PluginLabels(plugins);
    assert labels[..j + 1] == labels[..j] + [text];
    assert before + labels[..j + 1] == (before + labels[..j]) + [text];
    ItemsOfSnoc(m0, Item(first + |before| + j, text));
    NumberedAppend(first, before + labels[..j], [text]);
  }

  /** The text of an in-process plugin's item: its name and its format. */
  function InternalLabel(t: Description): (text: string)
    ensures text == t.name + " (" + t.pluginFormatName + ")"
  {
    t.name + " (" + t.pluginFormatName + ")"
  }

  function InternalLabels(types: seq<Description>): (texts: seq<string>)
    ensures |texts| == |types|
    ensures forall i | 0 <= i < |types| :: texts[i] == InternalLabel(types[i])
  {
    seq(|types|, i requires 0 <= i < |types| => InternalLabel(types[i]))
  }

  /** The known plugins without those of the in-process format, in order. */
  function WithoutInternal(types: seq<Description>): (kept: seq<Description>)
    ensures |kept| <= |types|
    ensures forall d | d in kept :: d in types && d.pluginFormatName != FormatIdentifier
    ensures forall d | d in types && d.pluginFormatName != FormatIdentifier :: d in kept
  {
    if types == [] then []
    else
      var last := types[|types| - 1];
      WithoutInternal(types[..|types| - 1]) + (if last.pluginFormatName == FormatIdentifier then [] else [last])
  }

  /** What a menu choice leads to, beside the sort method it may set. */
  datatype Action =
    | ClearGraph
    | OpenRecentFile(index: int)
    | SaveSortMethod(sortMethod: SortMethod)
    | CreatePlugin(description: Description)
    | NoAction

  /** The sort methods for IDs 200 to 204, in order. */
  const SortMethods: seq<SortMethod> := [DefaultOrder, SortAlphabetically, SortByCategory, SortByManufacturer, SortByFileSystemLocation]

  class HostWindow {
    /** The in-process plugins, numbered from 1 in the menu. */
    var pluginTypes: seq<Description>
    /** The known plugins in the order of the last menu built. */
    var pluginDescriptionArray: seq<Description>
    var pluginSortMethod: SortMethod
    /** Whether the graph editor exists. */
    var hasGraph: bool

    /** The constructor's part in the menu: the in-process plugins are the
        format's types, and the sort method is the saved one, by
        manufacturer when none was saved. */
    constructor (format: PluginFactory.PluginFormat, savedSortMethod: Option<SortMethod>)
      requires format.Valid()
      ensures pluginTypes == format.GetAllTypes() && pluginDescriptionArray == [] && hasGraph
      ensures pluginSortMethod == if savedSortMethod.Some? then savedSortMethod.value else SortByManufacturer
    {
      pluginTypes := format.GetAllTypes();
      pluginDescriptionArray := [];
      hasGraph := true;
      pluginSortMethod := if savedSortMethod.Some? then savedSortMethod.value else SortByManufacturer;
    }

    /** The in-process items, numbered from 1, when the graph exists. */
    method AddInternalItems() returns (m: seq<MenuEntry>)
      ensures ItemsOf(m) == if hasGraph then Numbered(1, InternalLabels(pluginTypes)) else []
      ensures forall e | e in m :: e.Item?
    {
      m := [];
      if hasGraph {
        var i := 0;
        for k := 0 to |pluginTypes|
          invariant i == k
          invariant ItemsOf(m) == Numbered(1, InternalLabels(pluginTypes)[..k])
          invariant forall e | e in m :: e.Item?
        {
          var t := pluginTypes[k];
          i := i + 1;
          ItemsOfSnoc(m, Item(i, t.name + " (" + t.pluginFormatName + ")"));
          NumberedAppend(1, InternalLabels(pluginTypes)[..k], [InternalLabel(t)]);
          assert InternalLabels(pluginTypes)[..k + 1] == InternalLabels(pluginTypes)[..k] + [InternalLabel(t)];
          m := m + [Item(i, t.name + " (" + t.pluginFormatName + ")")];
        }
        assert InternalLabels(pluginTypes)[..|pluginTypes|] == InternalLabels(pluginTypes);
      }
    }

    /** addPluginsToMenu: the in-process items, a separator, then the tree
        that `createTree` (the plugin list's library call) builds from the
        known plugins without the in-process ones; the array is rebuilt
        from that tree. */
    method AddPluginsToMenu(knownTypes: seq<Description>, createTree: (seq<Description>, SortMethod) -> PluginTree)
      returns (m: seq<MenuEntry>)
      modifies this`pluginDescriptionArray
      ensures pluginDescriptionArray == Listed(createTree(WithoutInternal(knownTypes), pluginSortMethod))
      ensures ItemsOf(m) == (if hasGraph then Numbered(1, InternalLabels(pluginTypes)) else []) +
                            Numbered(MenuIdBase, Labels(createTree(WithoutInternal(knownTypes), pluginSortMethod)))
    {
      var internal := AddInternalItems();
      var pluginDescriptions := WithoutInternal(knownTypes);
      var tree := createTree(pluginDescriptions, pluginSortMethod);
      var external, listed := AddToMenu(tree, []);
      m := internal + [Separator] + external;
      MenuJoined(internal, external, Numbered(MenuIdBase, Labels(tree)));
      pluginDescriptionArray := listed;
    }

    /** getChosenType: an ID in the in-process range picks that plugin; else
        an ID in the known range picks from the array; else nothing. */
    function GetChosenType(menuID: int): (r: Option<Description>)
      reads this
      ensures 0 <= menuID - 1 < |pluginTypes| ==> r == Some(pluginTypes[menuID - 1])
      ensures !(0 <= menuID - 1 < |pluginTypes|) && 0 <= menuID - MenuIdBase < |pluginDescriptionArray| ==>
                r == Some(pluginDescriptionArray[menuID - MenuIdBase])
      ensures r.None? <==> !(0 <= menuID - 1 < |pluginTypes|) && !(0 <= menuID - MenuIdBase < |pluginDescriptionArray|)
    {
      var internalIndex := menuID - 1;
      if 0 <= internalIndex < |pluginTypes| then Some(pluginTypes[internalIndex])
      else
        var externalIndex := menuID - MenuIdBase;
        if 0 <= externalIndex < |pluginDescriptionArray| then Some(pluginDescriptionArray[externalIndex])
        else None
    }

    /** menuItemSelected: 250 clears the graph, 100 to 199 reopen a recent
        graph file, 200 to 209 save the sort method after setting it for 200
        to 204, and any other ID creates the plugin it chooses, if any, when
        there is a graph to hold it (createPlugin's own check). */
    method MenuItemSelected(menuItemID: int) returns (action: Action)
      modifies this`pluginSortMethod
      ensures menuItemID == 250 ==> action == (if hasGraph then ClearGraph else NoAction)
      ensures 100 <= menuItemID < 200 ==> action == (if hasGraph then OpenRecentFile(menuItemID - 100) else NoAction)
      ensures 200 <= menuItemID < 205 ==> pluginSortMethod == SortMethods[menuItemID - 200]
      ensures 200 <= menuItemID < 210 ==> action == SaveSortMethod(pluginSortMethod)
      ensures !(200 <= menuItemID < 205) ==> pluginSortMethod == old(pluginSortMethod)
      ensures menuItemID != 250 && !(100 <= menuItemID < 210) ==>
                action == if hasGraph && GetChosenType(menuItemID).Some? then CreatePlugin(GetChosenType(menuItemID).value) else NoAction
    {
      if menuItemID == 250 {
        action := if hasGraph then ClearGraph else NoAction;
      } else if 100 <= menuItemID < 200 {
        action := if hasGraph then OpenRecentFile(menuItemID - 100) else NoAction;
      } else if 200 <= menuItemID < 210 {
        if menuItemID == 200 { pluginSortMethod := DefaultOrder; }
        else if menuItemID == 201 { pluginSortMethod := SortAlphabetically; }
        else if menuItemID == 202 { pluginSortMethod := SortByCategory; }
        else if menuItemID == 203 { pluginSortMethod := SortByManufacturer; }
        else if menuItemID == 204 { pluginSortMethod := SortByFileSystemLocation; }
        action := SaveSortMethod(pluginSortMethod);
      } else {
        var chosen := GetChosenType(menuItemID);
        action := if hasGraph && chosen.Some? then CreatePlugin(chosen.value) else NoAction;
      }
    }

    /** filesDropped, for files that are not a single graph file: of the
        plugins the scan found, those among the first five that exist are
        created. */
    method FilesDropped(isGraphFile: bool, typesFound: seq<Option<Description>>) returns (created: seq<Description>)
      ensures created == if !hasGraph || isGraphFile then [] else Present(typesFound[..Min(5, |typesFound|)])
      ensures |created| <= 5
    {
      created := [];
      if hasGraph && !isGraphFile {
        var n := Min(5, |typesFound|);
        for i := 0 to n
          invariant created == Present(typesFound[..i])
        {
          assert typesFound[..i + 1][..i] == typesFound[..i];
          if typesFound[i].Some? {
            created := created + [typesFound[i].value];
          }
        }
        assert typesFound[..n][..n] == typesFound[..n];
      }
    }
  }

  function Min(a: int, b: int): int
  {
    if a < b then a else b
  }

  /** The descriptions a scan actually produced, in order. */
  function Present(found: seq<Option<Description>>): (ds: seq<Description>)
    ensures |ds| <= |found|
    ensures forall d | d in ds :: Some(d) in found
  {
    if found == [] then []
    else
      var last := found[|found| - 1];
      Present(found[..|found| - 1]) + (if last.Some? then [last.value] else [])
  }

  lemma {:induction false} ItemsOfAppend(a: seq<MenuEntry>, b: seq<MenuEntry>)
    ensures ItemsOf(a + b) == ItemsOf(a) + ItemsOf(b)
    decreases |b|
  {
    if b == [] {
      assert a + b == a;
    } else {
      var init, last := b[..|b| - 1], b[|b| - 1];
      calc {
        ItemsOf(a + b);
        { assert b == init + [last]; Associative(a, init, [last]); }
        ItemsOf((a + init) + [last]);
        { ItemsOfSnoc(a + init, last); }
        ItemsOf(a + init) + EntryItems(last);
        { ItemsOfAppend(a, init); }
        ItemsOf(a) + ItemsOf(init) + EntryItems(last);
        { Associative(ItemsOf(a), ItemsOf(init), EntryItems(last));
          ItemsOfSnoc(init, last); assert init + [last] == b; }
        ItemsOf(a) + ItemsOf(b);
      }
    }
  }

  /** Every item of a built menu picks back the plugin it shows: the k-th
      in-process item picks in-process plugin k, and the k-th known item
      picks the k-th plugin of the tree, as long as there are fewer
      in-process plugins than the base ID. */
  lemma ItemsChooseTheirPlugins(w: HostWindow, m: seq<MenuEntry>, tree: PluginTree, k: nat)
    requires w.pluginDescriptionArray == Listed(tree) && |w.pluginTypes| < MenuIdBase
    requires ItemsOf(m) == (if w.hasGraph then Numbered(1, InternalLabels(w.pluginTypes)) else []) + Numbered(MenuIdBase, Labels(tree))
    requires k < |ItemsOf(m)|
    ensures var internal := if w.hasGraph then |w.pluginTypes| else 0;
            var id := ItemsOf(m)[k].0;
            if k < internal then w.GetChosenType(id) == Some(w.pluginTypes[k])
            else w.GetChosenType(id) == Some(Listed(tree)[k - internal]) && ItemsOf(m)[k].1 == Labels(tree)[k - internal]
  {
    var internalItems := if w.hasGraph then Numbered(1, InternalLabels(w.pluginTypes)) else [];
    var internal := |internalItems|;
    if k < internal {
      assert ItemsOf(m)[k] == internalItems[k];
    } else {
      assert ItemsOf(m)[k] == Numbered(MenuIdBase, Labels(tree))[k - internal];
    }
  }

  /** With fewer than 99 in-process plugins, no plugin item's ID falls in
      the ranges menuItemSelected keeps for its own commands. */
  lemma PluginIdsAvoidCommandIds(w: HostWindow, m: seq<MenuEntry>, tree: PluginTree, k: nat)
    requires |w.pluginTypes| < 99
    requires ItemsOf(m) == (if w.hasGraph then Numbered(1, InternalLabels(w.pluginTypes)) else []) + Numbered(MenuIdBase, Labels(tree))
    requires k < |ItemsOf(m)|
    ensures ItemsOf(m)[k].0 != 250 && !(100 <= ItemsOf(m)[k].0 < 210)
  {
    var internalItems := if w.hasGraph then Numbered(1, InternalLabels(w.pluginTypes)) else [];
    if k < |internalItems| {
      assert ItemsOf(m)[k] == internalItems[k];
    } else {
      assert ItemsOf(m)[k] == Numbered(MenuIdBase, Labels(tree))[k - |internalItems|];
    }
  }

  /** The reverb proxy, which the host's format lists after its four I/O
      processors, belongs to the in-process format, so it is removed from the
      known plugins before they are shown and never listed twice. */
  lemma ProxyNotListedAgain(reverb: PluginProxy.Processor, version: string, hash: string -> int,
                            knownTypes: seq<Description>)
    ensures PluginProxy.GetPluginDescription(reverb, version, hash) !in WithoutInternal(knownTypes)
  {
  }
}
