/** components/Navbar.tsx: the side navigation's keyboard shortcuts and its
    collapse toggle. Every menu, resource and connect item is reachable by a
    key: its id as a string. A key press outside a text field looks the
    lower-cased key up and either follows an internal path with the router
    or opens an external URL in a new tab. */
module Navbar {
  import opened Text

  // ---------------------------------------------------------------------------
  // Items and the shortcut map

  /** An item id: a number for the menu and resource items, a letter for the connect items. */
  datatype ItemId = Num(n: nat) | Letter(s: string)

  /** `id.toString()`. */
  function IdString(id: ItemId): string {
    match id
    case Num(n) => NatToString(n)
    case Letter(s) => s
  }

  /** A navigation item: its id and where it leads (its label and icon are left out). */
  datatype MenuItem = MenuItem(id: ItemId, path: string)

  const MenuItems: seq<MenuItem> := [
    MenuItem(Num(1), "/"), MenuItem(Num(2), "/about"), MenuItem(Num(3), "/experience"),
    MenuItem(Num(4), "/projects"), MenuItem(Num(5), "/stack")
  ]

  const ResourceItems: seq<MenuItem> := [
    MenuItem(Num(6), "/services"), MenuItem(Num(7), "/store"), MenuItem(Num(8), "/thoughts")
  ]

  const Https := "https://"
  const LinkedIn := Https + "www.linkedin.com/in/benjamin-belloeil-15396b254/"
  const GitHub := Https + "github.com/benjaminbelloeil"
  const Twitter := Https + "twitter.com/BenBelloeil"
  const Instagram := Https + "www.instagram.com/benjaminbelloeil_/?next=%2F"

  const ConnectItems: seq<MenuItem> := [
    MenuItem(Letter("c"), "/contact"), MenuItem(Letter("l"), LinkedIn), MenuItem(Letter("g"), GitHub),
    MenuItem(Letter("t"), Twitter), MenuItem(Letter("i"), Instagram)
  ]

  const AllItems: seq<MenuItem> := MenuItems + ResourceItems + ConnectItems

  /** The `[key, path]` pairs handed to `new Map`, one per item, in item order. */
  function ShortcutEntries(items: seq<MenuItem>): (entries: seq<(string, string)>)
    ensures |entries| == |items|
    ensures forall i :: 0 <= i < |items| ==> entries[i] == (IdString(items[i].id), items[i].path)
  {
    seq(|items|, i requires 0 <= i < |items| => (IdString(items[i].id), items[i].path))
  }

  /** `new Map(entries)`: entries are inserted in order, so a later entry with the
      same key replaces an earlier one. */
  function BuildMap(entries: seq<(string, string)>): (m: map<string, string>)
    ensures forall k :: k in m <==> exists i :: 0 <= i < |entries| && entries[i].0 == k
  {
    if |entries| == 0 then map[]
    else
      var init := entries[..|entries| - 1];
      var m := BuildMap(init);
      assert forall i :: 0 <= i < |init| ==> init[i] == entries[i];
      m[entries[|entries| - 1].0 := entries[|entries| - 1].1]
  }

  /** No two entries share a key. */
  predicate DistinctKeys(entries: seq<(string, string)>) {
    forall i, j :: 0 <= i < |entries| && 0 <= j < |entries| && entries[i].0 == entries[j].0 ==> i == j
  }

  /** With distinct keys no entry is shadowed: every key looks up its own path, and
      the map has one key per entry. */
  lemma {:induction false} BuildMapDistinct(entries: seq<(string, string)>)
    requires DistinctKeys(entries)
    ensures forall i :: 0 <= i < |entries| ==> BuildMap(entries)[entries[i].0] == entries[i].1
    ensures |BuildMap(entries).Keys| == |entries|
  {
    if |entries| > 0 {
      var init, last := entries[..|entries| - 1], entries[|entries| - 1];
      assert forall i :: 0 <= i < |init| ==> init[i] == entries[i];
      BuildMapDistinct(init);
      forall i | 0 <= i < |init| ensures init[i].0 != last.0 {
        assert entries[i].0 != entries[|entries| - 1].0;
      }
      assert BuildMap(entries).Keys == BuildMap(init).Keys + {last.0};
    }
  }

  /** The thirteen entries, written out. */
  lemma ShortcutEntriesValue()
    ensures ShortcutEntries(AllItems) == [
      ("1", "/"), ("2", "/about"), ("3", "/experience"), ("4", "/projects"), ("5", "/stack"),
      ("6", "/services"), ("7", "/store"), ("8", "/thoughts"),
      ("c", "/contact"), ("l", LinkedIn), ("g", GitHub), ("t", Twitter), ("i", Instagram)]
  {
    assert NatToString(1) == "1" && NatToString(2) == "2" && NatToString(3) == "3" && NatToString(4) == "4";
    assert NatToString(5) == "5" && NatToString(6) == "6" && NatToString(7) == "7" && NatToString(8) == "8";
  }

  /** `shortcutMap`. */
  function ShortcutMap(): map<string, string> {
    BuildMap(ShortcutEntries(AllItems))
  }

  /** The keys' characters, in item order. */
  const KeyChars := "12345678clgti"

  lemma KeyCharsDistinct()
    ensures forall i, j :: 0 <= i < |KeyChars| && 0 <= j < |KeyChars| && KeyChars[i] == KeyChars[j] ==> i == j
  {
  }

  /** The thirteen ids are distinct, so none is shadowed, and the map has thirteen keys. */
  lemma ShortcutKeysDistinct()
    ensures DistinctKeys(ShortcutEntries(AllItems))
    ensures |ShortcutMap().Keys| == 13
  {
    var e := ShortcutEntries(AllItems);
    ShortcutEntriesValue();
    assert forall i :: 0 <= i < 13 ==> e[i].0 == [KeyChars[i]];
    KeyCharsDistinct();
    forall i, j | 0 <= i < 13 && 0 <= j < 13 && e[i].0 == e[j].0 ensures i == j {
      assert e[i].0[0] == KeyChars[i] && e[j].0[0] == KeyChars[j];
    }
    BuildMapDistinct(e);
  }

  /** No item is shadowed: every item's id looks up that item's path. */
  lemma ShortcutLookups()
    ensures forall i :: 0 <= i < |AllItems| ==>
      IdString(AllItems[i].id) in ShortcutMap() && ShortcutMap()[IdString(AllItems[i].id)] == AllItems[i].path
  {
    var e := ShortcutEntries(AllItems);
    ShortcutKeysDistinct();
    BuildMapDistinct(e);
  }

  /** The nine menu, resource and contact items lead to internal paths, the other four
      connect items to external URLs. */
  lemma ItemKinds()
    ensures forall i :: 0 <= i < 9 ==> !StartsWith(AllItems[i].path, "http") && AllItems[i].path != ""
    ensures forall i :: 9 <= i < |AllItems| ==> StartsWith(AllItems[i].path, "http")
  {
    forall i | 0 <= i < 9 ensures AllItems[i].path[0] == '/' {
    }
    ExternalUrls();
  }

  lemma ExternalUrls()
    ensures StartsWith(LinkedIn, "http") && StartsWith(GitHub, "http")
    ensures StartsWith(Twitter, "http") && StartsWith(Instagram, "http")
  {
  }

  /** Every id is one character: the matching character of `KeyChars`. */
  lemma OneCharacterIds()
    ensures forall i :: 0 <= i < |AllItems| ==> IdString(AllItems[i].id) == [KeyChars[i]]
  {
    var e := ShortcutEntries(AllItems);
    ShortcutEntriesValue();
    assert forall i :: 0 <= i < 13 ==> e[i].0 == [KeyChars[i]];
  }

  // ---------------------------------------------------------------------------
  // Key presses

  /** What a key press does. */
  datatype KeyAction = Ignore | Push(path: string) | OpenTab(url: string)

  /** `handleKeyPress`, for a target with the given tag name and a shortcut map. */
  function KeyPress(tagName: string, key: string, shortcuts: map<string, string>): (a: KeyAction)
    ensures tagName == "INPUT" || tagName == "TEXTAREA" ==> a == Ignore
    ensures a != Ignore ==> Lower(key) in shortcuts && shortcuts[Lower(key)] != ""
    ensures a.OpenTab? ==> a.url == shortcuts[Lower(key)] && StartsWith(a.url, "http")
    ensures a.Push? ==> a.path == shortcuts[Lower(key)] && !StartsWith(a.path, "http")
    ensures tagName != "INPUT" && tagName != "TEXTAREA" && Lower(key) in shortcuts && shortcuts[Lower(key)] != ""
        ==> a != Ignore
  {
    if tagName == "INPUT" || tagName == "TEXTAREA" then Ignore
    else
      var k := Lower(key);
      if k in shortcuts && shortcuts[k] != "" then
        if StartsWith(shortcuts[k], "http") then OpenTab(shortcuts[k]) else Push(shortcuts[k])
      else Ignore
  }

  /** The key is lower-cased before the lookup, so a key and its lower case act alike. */
  lemma KeyCaseInsensitive(tagName: string, key: string, shortcuts: map<string, string>)
    ensures KeyPress(tagName, key, shortcuts) == KeyPress(tagName, Lower(key), shortcuts)
  {
    LowerIdempotent(key);
  }

  /** On the real map, outside a text field, the key of an item (in either case) does
      what the item says: the first nine navigate to their paths, the last four open
      their URLs. */
  lemma ItemKeyPress(tagName: string, key: string, i: int)
    requires tagName != "INPUT" && tagName != "TEXTAREA"
    requires 0 <= i < |AllItems| && Lower(key) == IdString(AllItems[i].id)
    ensures i < 9 ==> KeyPress(tagName, key, ShortcutMap()) == Push(AllItems[i].path)
    ensures i >= 9 ==> KeyPress(tagName, key, ShortcutMap()) == OpenTab(AllItems[i].path)
  {
    ShortcutLookups();
    ItemKinds();
  }

  /** A key that is no item's id does nothing. */
  lemma UnmappedKeyPress(tagName: string, key: string)
    requires forall i :: 0 <= i < |AllItems| ==> Lower(key) != IdString(AllItems[i].id)
    ensures KeyPress(tagName, key, ShortcutMap()) == Ignore
  {
    var e := ShortcutEntries(AllItems);
    assert forall i :: 0 <= i < |e| ==> e[i].0 == IdString(AllItems[i].id);
  }

  /** Shift-C reaches the contact page. */
  lemma UpperCaseShortcut()
    ensures KeyPress("BODY", "C", ShortcutMap()) == Push("/contact")
  {
    OneCharacterIds();
    assert Lower("C") == "c";
    ItemKeyPress("BODY", "C", 8);
  }

  /** A key whose name is longer than one character, such as Enter, does nothing. */
  lemma LongKeyIgnored(tagName: string, key: string)
    requires |key| != 1
    ensures KeyPress(tagName, key, ShortcutMap()) == Ignore
  {
    OneCharacterIds();
    UnmappedKeyPress(tagName, key);
  }

  // ---------------------------------------------------------------------------
  // Collapsing

  class Navbar {
    var isCollapsed: bool
    /** The values passed to the `onCollapse` prop by the toggle, in order. */
    var reported: seq<bool>

    constructor()
      ensures !isCollapsed && reported == []
    {
      isCollapsed := false;
      reported := [];
    }

    /** `handleCollapse`: flips the flag and reports the new value. */
    method HandleCollapse() returns (value: bool)
      modifies this
      ensures isCollapsed == !old(isCollapsed) && value == isCollapsed
      ensures reported == old(reported) + [value]
    {
      isCollapsed := !isCollapsed;
      reported := reported + [isCollapsed];
      value := isCollapsed;
    }
  }
}
