/** The sidebar: which menu it shows for the current path, which item is
    highlighted, opening and closing, and the sign-out item. */
module Sidebar {
  import opened Common
  import opened Text
  import opened Storage

  datatype MenuItem = MenuItem(title: string, path: string)

  const Accounts := MenuItem("Счета", "/home")
  const TransactionsItem := MenuItem("Транзакции", "/transactions")
  const AutoTransactionsItem := MenuItem("Автотранзакции", "/auto-transaction")
  const ReportsItem := MenuItem("Отчёты", "/reports")

  /** Whether the path belongs to the transactions section: exactly the paths
      on which the transactions or the recurring-rules item would be highlighted. */
  function InTransactionsSection(pathname: string): (inSection: bool)
    ensures inSection <==> IsActive(pathname, TransactionsItem) || IsActive(pathname, AutoTransactionsItem)
  {
    StartsWith(pathname, "/transactions") || StartsWith(pathname, "/auto-transaction")
  }

  /** `menuItems`: the transactions section shows accounts, transactions and
      recurring rules; every other path shows accounts and reports. */
  function MenuItems(pathname: string): (items: seq<MenuItem>)
    ensures InTransactionsSection(pathname) ==> items == [Accounts, TransactionsItem, AutoTransactionsItem]
    ensures !InTransactionsSection(pathname) ==> items == [Accounts, ReportsItem]
    ensures |items| > 0 && items[0] == Accounts
  {
    if InTransactionsSection(pathname) then [Accounts, TransactionsItem, AutoTransactionsItem]
    else [Accounts, ReportsItem]
  }

  /** `isActive`: a plain prefix test, not a path-segment match. The item is
      highlighted exactly when the path is its path followed by anything. */
  function IsActive(pathname: string, item: MenuItem): (active: bool)
    ensures active <==> |item.path| <= |pathname| && pathname == item.path + pathname[|item.path|..]
  {
    StartsWith(pathname, item.path)
  }

  /** Two prefixes of one string agree on their common length. */
  lemma PrefixesAgree(s: string, a: string, b: string)
    requires StartsWith(s, a) && StartsWith(s, b) && |a| <= |b|
    ensures StartsWith(b, a)
  {
    assert b[..|a|] == s[..|b|][..|a|];
  }

  /** No two menu paths are prefixes of one another. */
  lemma PathsIndependent(a: MenuItem, b: MenuItem)
    requires a in [Accounts, TransactionsItem, AutoTransactionsItem, ReportsItem]
    requires b in [Accounts, TransactionsItem, AutoTransactionsItem, ReportsItem]
    requires a.path != b.path
    ensures !StartsWith(a.path, b.path) && !StartsWith(b.path, a.path)
  {
    // Each pair differs at index 1 already.
    assert a.path[1] != b.path[1];
  }

  /** At most one menu item is highlighted, whatever the path. */
  lemma AtMostOneActive(pathname: string, i: int, j: int)
    requires 0 <= i < |MenuItems(pathname)| && 0 <= j < |MenuItems(pathname)|
    requires IsActive(pathname, MenuItems(pathname)[i]) && IsActive(pathname, MenuItems(pathname)[j])
    ensures i == j
  {
    var items := MenuItems(pathname);
    var a, b := items[i], items[j];
    if i != j {
      assert a.path != b.path;
      PathsIndependent(a, b);
      if |a.path| <= |b.path| {
        PrefixesAgree(pathname, a.path, b.path);
      } else {
        PrefixesAgree(pathname, b.path, a.path);
      }
    }
  }

  /** Because the test is a plain prefix, a path that merely begins with an
      item's path highlights it. */
  lemma PrefixIsNotSegment()
    ensures IsActive("/transactions-archive", TransactionsItem)
    ensures IsActive("/homepage", Accounts)
  {
    assert "/transactions-archive"[..|"/transactions"|] == "/transactions";
    assert "/homepage"[..|"/home"|] == "/home";
  }

  /** `toggle`: the new state, and what the parent's `setIsOpen` is told (`None`
      when the parent passed no callback). */
  function Toggle(isOpen: bool, hasCallback: bool): (r: (bool, Option<bool>))
    ensures r.0 == !isOpen
    ensures hasCallback ==> r.1 == Some(r.0)
    ensures !hasCallback ==> r.1 == None
  {
    var newState := !isOpen;
    (newState, if hasCallback then Some(newState) else None)
  }

  /** Toggling twice gives the first state back. */
  lemma ToggleTwice(isOpen: bool, hasCallback: bool)
    ensures Toggle(Toggle(isOpen, hasCallback).0, hasCallback).0 == isOpen
  {
  }

  const NarrowWidth := 768

  /** `useState(!collapsed)` followed by the mount effect: on a narrow window
      an open sidebar toggles itself closed. */
  function Mounted(collapsed: bool, innerWidth: int, hasCallback: bool): (r: (bool, Option<bool>))
    ensures innerWidth < NarrowWidth ==> !r.0
    ensures innerWidth >= NarrowWidth ==> r == (!collapsed, None)
    ensures innerWidth < NarrowWidth && !collapsed && hasCallback ==> r.1 == Some(false)
    ensures collapsed ==> r == (false, None)
  {
    var isOpen := !collapsed;
    if innerWidth < NarrowWidth && isOpen then Toggle(isOpen, hasCallback) else (isOpen, None)
  }

  /** The sign-out item: all of storage is cleared, the auth state is not. */
  method SignOut(storage: LocalStorage)
    modifies storage
    ensures storage.items == map[]
  {
    storage.Clear();
  }
}
