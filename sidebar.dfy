/** The navigation menu of the layout (src/components/Layout/Sidebar.tsx): the
    menu chosen by role, the highlighted entry and the avatar initials. */
module Sidebar {
  import opened Types

  /** A menu entry. The source's `label` field is `title` here, because `label`
      is a Dafny keyword. */
  datatype MenuItem = MenuItem(path: string, title: string)

  const AdminMenuItems: seq<MenuItem> := [
    MenuItem("/", "Tableau de bord"),
    MenuItem("/produits", "Produits"),
    MenuItem("/categories", "Catégories"),
    MenuItem("/fournisseurs", "Fournisseurs"),
    MenuItem("/clients", "Clients"),
    MenuItem("/utilisateurs", "Utilisateurs"),
    MenuItem("/dettes", "Gestion des Dettes"),
    MenuItem("/achats", "Achat Produits"),
    MenuItem("/information", "Information Société")
  ]

  const CaissierMenuItems: seq<MenuItem> := [
    MenuItem("/caisse", "POS - Caisse"),
    MenuItem("/facture", "Impression Facture")
  ]

  /** No two entries of a menu lead to the same path. */
  ghost predicate DistinctPaths(items: seq<MenuItem>)
  {
    forall i, j :: 0 <= i < j < |items| ==> items[i].path != items[j].path
  }

  /** `user?.typeUser === 'Admin' ? adminMenuItems : caissierMenuItems`: anyone
      but an administrator, including nobody, gets the cashier's menu. */
  function MenuItems(user: Option<User>): (items: seq<MenuItem>)
    ensures user.Some? && user.value.typeUser == "Admin" ==> |items| == 9 && items[0].path == "/"
    ensures !(user.Some? && user.value.typeUser == "Admin") ==>
      |items| == 2 && items[0].path == "/caisse" && items[1].path == "/facture"
    ensures DistinctPaths(items)
  {
    if user.Some? && user.value.typeUser == "Admin" then AdminMenuItems else CaissierMenuItems
  }

  /** An entry is highlighted when the current path is exactly its path. */
  predicate IsActive(pathname: string, item: MenuItem): (b: bool)
    ensures b <==> |pathname| == |item.path| && forall k :: 0 <= k < |pathname| ==> pathname[k] == item.path[k]
  {
    pathname == item.path
  }

  /** Whatever the path, at most one entry of the menu is highlighted. */
  lemma AtMostOneActive(user: Option<User>, pathname: string, i: int, j: int)
    requires 0 <= i < |MenuItems(user)| && 0 <= j < |MenuItems(user)|
    requires IsActive(pathname, MenuItems(user)[i]) && IsActive(pathname, MenuItems(user)[j])
    ensures i == j
  {
  }

  /** `s?.[0]`: the first character, or nothing for an empty string. */
  function FirstChar(s: string): (r: string)
    ensures |r| == if s == "" then 0 else 1
    ensures s != "" ==> r[0] == s[0]
  {
    if s == "" then "" else [s[0]]
  }

  /** `{user?.nom?.[0]}{user?.prenom?.[0]}`: the avatar shows the first letter of
      the surname then of the given name; an empty name adds nothing, and no
      user shows nothing. */
  function Initials(user: Option<User>): (r: string)
    ensures user.None? ==> r == ""
    ensures user.Some? ==>
      |r| == (if user.value.nom == "" then 0 else 1) + (if user.value.prenom == "" then 0 else 1)
    ensures user.Some? && user.value.nom != "" ==> r[0] == user.value.nom[0]
    ensures user.Some? && user.value.prenom != "" ==> r[|r| - 1] == user.value.prenom[0]
  {
    match user
    case None => ""
    case Some(u) => FirstChar(u.nom) + FirstChar(u.prenom)
  }
}
