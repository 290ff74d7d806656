/**
 * The sidebar's navigation data: which items render as collapsible groups, and how a child
 * link's target is joined onto its parent's path.
 */
module Sidebar {
  import opened Wrappers

  datatype ChildLink = ChildLink(caption: string, to: string)

  datatype NavItem = NavItem(caption: string, to: Option<string>, children: Option<seq<ChildLink>>)

  datatype NavGroup = NavGroup(title: string, items: seq<NavItem>)

  const OverviewItem := NavItem("Dashboard Overview", Some("/overview"), None)

  const IamChildren: seq<ChildLink> := [
    ChildLink("Users", "/users"),
    ChildLink("Roles", "/roles"),
    ChildLink("Permissions", "/permissions"),
    ChildLink("Policies", "/policies"),
    ChildLink("Features", "/features")
  ]

  const IamItem := NavItem("IAM", Some("/iam"), Some(IamChildren))

  const Groups: seq<NavGroup> := [NavGroup("Administration overview", [OverviewItem, IamItem])]

  /** `hasChildren`: the children list is present and non-empty. */
  predicate HasChildren(item: NavItem) {
    item.children.Some? && |item.children.value| > 0
  }

  /** `.replace(/\/$/, '')`: one trailing slash removed, if there is one. */
  function StripTrailingSlash(s: string): (r: string)
    ensures |s| > 0 && s[|s| - 1] == '/' ==> r + "/" == s
    ensures !(|s| > 0 && s[|s| - 1] == '/') ==> r == s
  {
    if |s| > 0 && s[|s| - 1] == '/' then s[..|s| - 1] else s
  }

  /** `.replace(/^\//, '')`: one leading slash removed, if there is one. */
  function StripLeadingSlash(s: string): (r: string)
    ensures |s| > 0 && s[0] == '/' ==> "/" + r == s
    ensures !(|s| > 0 && s[0] == '/') ==> r == s
  {
    if |s| > 0 && s[0] == '/' then s[1..] else s
  }

  /** `fullTo` for a parent path `base` (`Item.to || ''`) and a child path. */
  function FullTo(base: string, child: string): string {
    if base != "" then StripTrailingSlash(base) + "/" + StripLeadingSlash(child) else child
  }

  /** With an empty base, the child path is used as it is. */
  lemma EmptyBaseKeepsChild(child: string)
    ensures FullTo("", child) == child
  {
  }

  /** The join puts one slash between the two paths whether or not either side brought its
      own: a base and a child without slashes at the joint join to `base + "/" + child`, and
      adding one slash to either side does not change the result. */
  lemma JoinNormalisesOneSlash(base: string, child: string)
    requires base != "" && base[|base| - 1] != '/'
    requires !(|child| > 0 && child[0] == '/')
    ensures FullTo(base, child) == base + "/" + child
    ensures FullTo(base + "/", child) == FullTo(base, child)
    ensures FullTo(base, "/" + child) == FullTo(base, child)
    ensures FullTo(base + "/", "/" + child) == FullTo(base, child)
  {
    assert (base + "/")[..|base|] == base;
    assert ("/" + child)[1..] == child;
  }

  /** Only one slash is stripped on each side: `'a//'` joined with `'x'` gives `'a//x'`. */
  lemma OnlyOneSlashStripped()
    ensures FullTo("a//", "x") == "a//x"
    ensures FullTo("/a", "//x") == "/a//x"
  {
    assert "a//"[..2] == "a/";
    assert "//x"[1..] == "/x";
  }

  /** The targets of an item's children, in order. */
  function ChildTargets(item: NavItem): (ts: seq<string>)
    requires item.children.Some?
    ensures |ts| == |item.children.value|
    ensures forall i :: 0 <= i < |ts| ==> ts[i] == FullTo(item.to.GetOr(""), item.children.value[i].to)
  {
    var cs := item.children.value;
    seq(|cs|, i requires 0 <= i < |cs| => FullTo(item.to.GetOr(""), cs[i].to))
  }

  /** The five IAM pages. */
  const IamTargets: seq<string> := ["/iam/users", "/iam/roles", "/iam/permissions", "/iam/policies", "/iam/features"]

  lemma UsersTarget()
    ensures FullTo("/iam", "/users") == "/iam/users"
  {
    assert StripTrailingSlash("/iam") == "/iam";
    assert StripLeadingSlash("/users") == "users";
  }

  lemma RolesTarget()
    ensures FullTo("/iam", "/roles") == "/iam/roles"
  {
    assert StripTrailingSlash("/iam") == "/iam";
    assert StripLeadingSlash("/roles") == "roles";
  }

  lemma PermissionsTarget()
    ensures FullTo("/iam", "/permissions") == "/iam/permissions"
  {
    assert StripTrailingSlash("/iam") == "/iam";
    assert StripLeadingSlash("/permissions") == "permissions";
  }

  lemma PoliciesTarget()
    ensures FullTo("/iam", "/policies") == "/iam/policies"
  {
    assert StripTrailingSlash("/iam") == "/iam";
    assert StripLeadingSlash("/policies") == "policies";
  }

  lemma FeaturesTarget()
    ensures FullTo("/iam", "/features") == "/iam/features"
  {
    assert StripTrailingSlash("/iam") == "/iam";
    assert StripLeadingSlash("/features") == "features";
  }

  lemma IamChildTarget(i: nat)
    requires i < |IamChildren|
    ensures FullTo("/iam", IamChildren[i].to) == IamTargets[i]
  {
    if i == 0 {
      UsersTarget();
    } else if i == 1 {
      RolesTarget();
    } else if i == 2 {
      PermissionsTarget();
    } else if i == 3 {
      PoliciesTarget();
    } else {
      FeaturesTarget();
    }
  }

  /** The overview link is a plain link; IAM is a group whose children lead to the five IAM
      pages. */
  lemma ConfiguredLinks()
    ensures Groups[0].items == [OverviewItem, IamItem]
    ensures !HasChildren(OverviewItem) && HasChildren(IamItem)
    ensures ChildTargets(IamItem) == IamTargets
  {
    var ts := ChildTargets(IamItem);
    forall i | 0 <= i < |ts| ensures ts[i] == IamTargets[i] {
      IamChildTarget(i);
    }
  }
}
