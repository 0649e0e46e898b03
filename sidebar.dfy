/** The dashboard side bar: the six navigation links of a tenant and which one is highlighted. */
module SideBar {
  import opened Wrappers
  import opened Text

  datatype NavItem = NavItem(name: string, href: string)

  /** The link templates; `[tenant]` stands for the tenant's slug. */
  const Navigation: seq<NavItem> := [
    NavItem("Dashboard", "/[tenant]"),
    NavItem("Productos", "/[tenant]/products"),
    NavItem("Ventas", "/[tenant]/sales"),
    NavItem("Reportes", "/[tenant]/reports"),
    NavItem("Clientes", "/[tenant]/customers"),
    NavItem("Configuración", "/[tenant]/settings")
  ]

  /** What each template adds after the tenant segment. */
  const Sections: seq<string> := ["", "/products", "/sales", "/reports", "/customers", "/settings"]

  /** `item.href.replace("[tenant]", tenant)`. */
  function Href(item: NavItem, tenant: string): (r: string)
    ensures StartsWith(item.href, "/[tenant]") ==> r == "/" + tenant + item.href[|"/[tenant]"|..]
  {
    if StartsWith(item.href, "/[tenant]") then
      var section := item.href[|"/[tenant]"|..];
      assert item.href == "/[tenant]" + section;
      ReplaceTenant(section, tenant);
      ReplaceFirst(item.href, "[tenant]", tenant)
    else
      ReplaceFirst(item.href, "[tenant]", tenant)
  }

  /** `pathname === href || (pathname?.startsWith(href) && href !== `/${tenant}`)`;
      `usePathname` may give no path at all. */
  predicate IsActive(pathname: Option<string>, href: string, tenant: string)
    ensures IsActive(pathname, href, tenant) ==> pathname.Some? && StartsWith(pathname.value, href)
    ensures pathname.Some? && StartsWith(pathname.value, href) && pathname.value != href ==>
      (IsActive(pathname, href, tenant) <==> href != "/" + tenant)
  {
    pathname == Some(href) || (pathname.Some? && StartsWith(pathname.value, href) && href != "/" + tenant)
  }

  lemma TemplateShape(i: nat)
    requires i < |Navigation|
    ensures |Sections| == |Navigation| && Navigation[i].href == "/[tenant]" + Sections[i]
  {
  }

  /** The placeholder sits right after the leading `/`, so it is the one replaced. */
  lemma ReplaceTenant(section: string, tenant: string)
    ensures ReplaceFirst("/[tenant]" + section, "[tenant]", tenant) == "/" + tenant + section
  {
    var template := "/[tenant]" + section;
    assert template[1..][..|"[tenant]"|] == "[tenant]";
    assert !StartsWith(template[0..], "[tenant]") by { assert template[0..][0] == '/'; }
    IndexOfAt(template, "[tenant]", 1);
    assert template[..1] == "/";
    assert template[1 + |"[tenant]"|..] == section;
  }

  /** Every link is `/<tenant>` followed by its section. */
  lemma NavigationHrefs(i: nat, tenant: string)
    requires i < |Navigation|
    ensures Href(Navigation[i], tenant) == "/" + tenant + Sections[i]
  {
    TemplateShape(i);
    ReplaceTenant(Sections[i], tenant);
  }

  /** The Dashboard link is highlighted only on the tenant's home path itself, never below it. */
  lemma DashboardExactMatch(pathname: Option<string>, tenant: string)
    ensures IsActive(pathname, Href(Navigation[0], tenant), tenant) <==> pathname == Some("/" + tenant)
  {
    NavigationHrefs(0, tenant);
    assert "/" + tenant + Sections[0] == "/" + tenant;
  }

  /** Two distinct sections differ at their second or third character. */
  lemma SectionsDistinguished(i: nat, j: nat)
    requires 1 <= i < |Sections| && 1 <= j < |Sections|
    ensures 3 <= |Sections[i]|
    ensures Sections[i][1] == Sections[j][1] && Sections[i][2] == Sections[j][2] ==> i == j
  {
  }

  /** A path that starts with `a + b` continues, after `a`, with `b`. */
  lemma StartsWithConcat(p: string, a: string, b: string)
    requires StartsWith(p, a + b)
    ensures StartsWith(p[|a|..], b)
  {
    assert p[|a|..][..|b|] == (a + b)[|a|..];
  }

  /** At most one link is highlighted, whatever the path. */
  lemma {:induction false} AtMostOneActive(pathname: Option<string>, tenant: string, i: nat, j: nat)
    requires i < |Navigation| && j < |Navigation|
    requires IsActive(pathname, Href(Navigation[i], tenant), tenant)
    requires IsActive(pathname, Href(Navigation[j], tenant), tenant)
    ensures i == j
  {
    NavigationHrefs(i, tenant);
    NavigationHrefs(j, tenant);
    var home := "/" + tenant;
    var p := pathname.value;
    if i == 0 || j == 0 {
      var k := if i == 0 then j else i;
      DashboardExactMatch(pathname, tenant);
      if k != 0 {
        SectionsDistinguished(k, k);
      }
    } else {
      SectionsDistinguished(i, j);
      SectionsDistinguished(j, i);
      assert StartsWith(p, home + Sections[i]);
      assert StartsWith(p, home + Sections[j]);
      StartsWithConcat(p, home, Sections[i]);
      StartsWithConcat(p, home, Sections[j]);
      var rest := p[|home|..];
      assert rest[1] == Sections[i][1] && rest[2] == Sections[i][2] by {
        assert rest[..|Sections[i]|] == Sections[i];
      }
      assert rest[1] == Sections[j][1] && rest[2] == Sections[j][2] by {
        assert rest[..|Sections[j]|] == Sections[j];
      }
    }
  }

  /** Without a path nothing is highlighted. */
  function ActiveLinks(pathname: Option<string>, tenant: string): (r: seq<bool>)
    ensures |r| == |Navigation|
    ensures forall i :: 0 <= i < |r| ==> (r[i] <==> IsActive(pathname, Href(Navigation[i], tenant), tenant))
    ensures pathname.None? ==> forall i :: 0 <= i < |r| ==> !r[i]
  {
    seq(|Navigation|, i requires 0 <= i < |Navigation| => IsActive(pathname, Href(Navigation[i], tenant), tenant))
  }
}
