// The sidebar of the application layout: which navigation entry is shown
// as the current one for a given pathname.
module Navigation {
  import opened Strings

  datatype NavItem = NavItem(name: string, href: string)

  const Primary := [NavItem("Dashboard", "/"), NavItem("Chat", "/chat"), NavItem("Tasks", "/tasks"), NavItem("Activity", "/activity")]
  const Secondary := [NavItem("Settings", "/settings"), NavItem("Help", "/help")]

  /** A primary entry is current on its own page and, except the root, on any pathname it is a prefix of. */
  predicate PrimaryActive(pathname: string, href: string) {
    pathname == href || (StartsWith(pathname, href) && href != "/")
  }

  /** A secondary entry is current only on its own page. */
  predicate SecondaryActive(pathname: string, href: string) {
    pathname == href
  }

  /** The dashboard entry is current only on "/" itself; every other entry also below its own path. */
  lemma PrimaryActiveRule(pathname: string, href: string)
    ensures href == "/" ==> (PrimaryActive(pathname, href) <==> pathname == "/")
    ensures href != "/" ==> (PrimaryActive(pathname, href) <==> StartsWith(pathname, href))
  {
  }

  /** The prefix test is on characters, not path segments: "/tasks" is also current on "/tasksx". */
  lemma PrefixNotSegment()
    ensures PrimaryActive("/tasksx", "/tasks") && PrimaryActive("/tasks/1", "/tasks")
    ensures !SecondaryActive("/help/x", "/help")
  {
    assert "/tasks" <= "/tasksx";
    assert "/tasks" <= "/tasks/1";
  }

  /** No two primary entries are current at once, whatever the pathname. */
  lemma AtMostOnePrimary(pathname: string, i: nat, j: nat)
    requires i < j < |Primary|
    ensures !(PrimaryActive(pathname, Primary[i].href) && PrimaryActive(pathname, Primary[j].href))
  {
    // Past the root, the entries already differ in their second character.
    var a, b := Primary[i].href, Primary[j].href;
    assert |b| > 1 && b != "/" && (a == "/" || (|a| > 1 && a[1] != b[1]));
  }
}
