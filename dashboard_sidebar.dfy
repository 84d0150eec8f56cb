/** The dashboard navigation (components/DashboardSidebar.tsx): four links,
    each highlighted when `isActive` holds for the current pathname. The
    dashboard entry needs an exact match; the others match by plain string
    prefix. */
module DashboardSidebar {
  import opened JsText

  const Home := "/dashboard"
  const Lists := "/dashboard/lists"
  const Mail := "/dashboard/mail"
  const Settings := "/dashboard/settings"

  /** The four navigation entries, in order. */
  datatype Entry = HomeEntry | ListsEntry | MailEntry | SettingsEntry

  /** The path an entry passes to `isActive`. */
  function TestedPath(e: Entry): string {
    match e
    case HomeEntry => Home
    case ListsEntry => Lists
    case MailEntry => Mail
    case SettingsEntry => Settings
  }

  /** The href an entry links to; only the lists entry differs from the
      path it tests. */
  function Target(e: Entry): string {
    if e == ListsEntry then "/dashboard/lists/create" else TestedPath(e)
  }

  /** `isActive(path)` for the current `pathname`. */
  predicate IsActive(pathname: string, path: string) {
    if path == "/dashboard" then pathname == "/dashboard"
    else StartsWith(pathname, path)
  }

  predicate Highlighted(pathname: string, e: Entry) {
    IsActive(pathname, TestedPath(e))
  }

  /** Neither of two strings of which neither is a prefix of the other can be
      a prefix of the same pathname. */
  lemma NotBothPrefixes(pathname: string, a: string, b: string)
    requires |a| <= |b| && !StartsWith(b, a)
    ensures !(StartsWith(pathname, a) && StartsWith(pathname, b))
  {
    if StartsWith(pathname, a) && StartsWith(pathname, b) {
      PrefixesNest(pathname, a, b);
    }
  }

  /** The dashboard entry is highlighted exactly on "/dashboard"; any other
      entry exactly on pathnames starting with its tested path. */
  lemma HighlightedIff(pathname: string, e: Entry)
    ensures e == HomeEntry ==> (Highlighted(pathname, e) <==> pathname == Home)
    ensures e != HomeEntry ==> (Highlighted(pathname, e) <==> StartsWith(pathname, TestedPath(e)))
  {
    assert e != HomeEntry ==> TestedPath(e) != Home by {
      assert |Lists| != |Home| && |Mail| != |Home| && |Settings| != |Home|;
    }
  }

  /** At most one entry is highlighted, whatever the pathname. */
  lemma AtMostOneHighlighted(pathname: string, e1: Entry, e2: Entry)
    requires Highlighted(pathname, e1) && Highlighted(pathname, e2)
    ensures e1 == e2
  {
    HighlightedIff(pathname, e1);
    HighlightedIff(pathname, e2);
    assert Mail[..|Mail|] != Lists[..|Mail|] by {
      assert Mail[11] != Lists[11];
    }
    assert Settings[..|Mail|] != Mail by {
      assert Settings[11] != Mail[11];
    }
    assert Settings[..|Lists|] != Lists by {
      assert Settings[11] != Lists[11];
    }
    NotBothPrefixes(pathname, Mail, Lists);
    NotBothPrefixes(pathname, Mail, Settings);
    NotBothPrefixes(pathname, Lists, Settings);
  }

  /** The lists entry tests "/dashboard/lists", not its link target: it is
      highlighted on its own target and on every page below
      "/dashboard/lists", while the target would match only below
      "/dashboard/lists/create". */
  lemma ListsCoversEveryListPage(rest: string)
    ensures Highlighted(Lists + rest, ListsEntry)
    ensures Highlighted(Target(ListsEntry), ListsEntry)
    ensures !StartsWith(Lists + "/42", Target(ListsEntry))
  {
    assert (Lists + rest)[..|Lists|] == Lists;
    var target := Target(ListsEntry);
    assert target[..|Lists|] == Lists;
    assert |Lists + "/42"| < |target|;
  }

  /** Prefix matching has no segment boundary: "/dashboard/mailbox" lights
      up the mail entry; and "/dashboard/" (with a trailing slash) lights up
      none. */
  lemma PrefixWithoutBoundary()
    ensures Highlighted("/dashboard/mailbox", MailEntry)
    ensures forall e :: !Highlighted("/dashboard/", e)
  {
    assert "/dashboard/mailbox"[..|Mail|] == Mail;
    forall e
      ensures !Highlighted("/dashboard/", e)
    {
      HighlightedIff("/dashboard/", e);
      assert "/dashboard/" != Home by {
        assert |"/dashboard/"| != |Home|;
      }
    }
  }
}
