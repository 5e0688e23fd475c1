/** The role management page (frontendApp/src/components/SetRolePage.jsx)
    and the role reading the pages share: the admin check on the signed-in
    user's role, the label shown for a role, and the edit dialog that sends
    the PATCH /auth/role request. Requests are oracle outcomes. */
module SetRolePage {
  import opened JsCore
  import Auth
  import SharedFetch

  /** `String(role || "").toUpperCase() === "ADMIN"`, the check every page
      makes on the signed-in user's role. */
  predicate IsAdminRole(role: Option<Json>)
  {
    ToUpper(JsString(Or(role, Str("")))) == "ADMIN"
  }

  /** For a role held as a string, the page's admin check and the server's
      admin gate give the same answer, whatever the letter case. */
  lemma AdminCheckAgreesWithGate(decoded: Json, role: string)
    requires Prop(Some(decoded), "role") == Str(role)
    ensures Auth.RoleIsAdmin(decoded) == Some(IsAdminRole(Str(role)))
  {
    if role == "" {
      assert Or(Str(role), Str("")) == Str("");
    }
  }

  /** `roleToLabel`: "Admin" or "User" for those roles in any letter case,
      any other role as it is, and "" for none. */
  function RoleToLabel(role: Option<Json>): (r: string)
    ensures var upper := ToUpper(JsString(Or(role, Str(""))));
            (upper == "ADMIN" ==> r == "Admin") &&
            (upper == "USER" ==> r == "User") &&
            (Truthy(role) && upper != "ADMIN" && upper != "USER" ==> r == JsString(role))
    ensures !Truthy(role) ==> r == ""
  {
    var upper := ToUpper(JsString(Or(role, Str(""))));
    if upper == "ADMIN" then "Admin"
    else if upper == "USER" then "User"
    else if Truthy(role) then JsString(role)
    else ""
  }

  /** The label only ever changes the letter case of the role's text. */
  lemma LabelKeepsRole(role: Option<Json>)
    ensures ToUpper(RoleToLabel(role)) == ToUpper(JsString(Or(role, Str(""))))
  {
    var upper := ToUpper(JsString(Or(role, Str(""))));
    if upper == "ADMIN" {
      var u := ToUpper("Admin");
      assert u[0] == 'A' && u[1] == 'D' && u[2] == 'M' && u[3] == 'I' && u[4] == 'N';
      assert u == "ADMIN";
    } else if upper == "USER" {
      var u := ToUpper("User");
      assert u[0] == 'U' && u[1] == 'S' && u[2] == 'E' && u[3] == 'R';
      assert u == "USER";
    }
  }

  /** A lower-case "admin" is labelled "Admin". */
  lemma LowerCaseAdminLabel(role: string)
    requires role == "admin"
    ensures RoleToLabel(Str(role)) == "Admin"
  {
    var u := ToUpper(role);
    assert u[0] == 'A' && u[1] == 'D' && u[2] == 'M' && u[3] == 'I' && u[4] == 'N';
    assert u == "ADMIN";
  }

  /** A user of the list: its id and its role as the server sent them. */
  datatype ListedUser = ListedUser(id: Option<Json>, role: Option<Json>)

  /** The body of PATCH /auth/role/:id. */
  datatype RoleRequest = RoleRequest(userId: Option<Json>, role: string)

  /** The choices of the role select. */
  predicate RoleChoice(role: string)
  {
    role == "USER" || role == "ADMIN"
  }

  /** Both choices are already in upper case. */
  lemma ChoicesAreUpperCase(role: string)
    requires RoleChoice(role)
    ensures ToUpper(role) == role
  {
    var u := ToUpper(role);
    if role == "USER" {
      assert u[0] == 'U' && u[1] == 'S' && u[2] == 'E' && u[3] == 'R';
    } else {
      assert u[0] == 'A' && u[1] == 'D' && u[2] == 'M' && u[3] == 'I' && u[4] == 'N';
    }
  }

  class RoleEditor {
    /** The user whose role is being edited (`editingUser`); None when the
        dialog is closed. */
    var editing: Option<ListedUser>
    var newRole: string
    var editMsg: string
    /** The role updates the page has sent, oldest first. */
    var sent: seq<RoleRequest>

    /** The chosen role is in upper case, and so is every role sent. */
    ghost predicate Valid()
      reads this
    {
      ToUpper(newRole) == newRole &&
      forall i :: 0 <= i < |sent| ==> ToUpper(sent[i].role) == sent[i].role
    }

    constructor ()
      ensures Valid()
      ensures editing == None && newRole == "USER" && editMsg == "" && sent == []
    {
      ChoicesAreUpperCase("USER");
      editing := None;
      newRole := "USER";
      editMsg := "";
      sent := [];
    }

    /** `openEdit`: the signed-in user's own entry does not open; any other
        opens with its role upper-cased, "USER" when it has none. */
    method OpenEdit(u: ListedUser, selfId: Option<Json>)
      requires Valid()
      modifies this
      ensures Valid() && sent == old(sent)
      ensures u.id == selfId ==> editing == old(editing) && newRole == old(newRole) && editMsg == old(editMsg)
      ensures u.id != selfId ==>
                editing == Some(u) && newRole == ToUpper(JsString(Or(u.role, Str("USER")))) && editMsg == ""
    {
      if u.id == selfId {
        return;
      }
      editing := Some(u);
      newRole := ToUpper(JsString(Or(u.role, Str("USER"))));
      ToUpperIdempotent(JsString(Or(u.role, Str("USER"))));
      editMsg := "";
    }

    /** `setNewRole(e.target.value)`, from the select's choices. */
    method ChooseRole(role: string)
      requires Valid() && RoleChoice(role)
      modifies this
      ensures Valid()
      ensures newRole == role && editing == old(editing) && editMsg == old(editMsg) && sent == old(sent)
    {
      ChoicesAreUpperCase(role);
      newRole := role;
    }

    /** `onEditDialogClose`. */
    method Close()
      requires Valid()
      modifies this
      ensures Valid()
      ensures editing == None && editMsg == "" && newRole == old(newRole) && sent == old(sent)
    {
      editing := None;
      editMsg := "";
    }

    /** `saveRole`: nothing without an open dialog; the signed-in user's own
        role is refused without a request; otherwise the chosen role is sent,
        a failure is shown and a success closes the dialog. */
    method SaveRole(selfId: Option<Json>, outcome: SharedFetch.FetchResult)
      requires Valid()
      modifies this
      ensures Valid() && newRole == old(newRole)
      ensures old(editing).None? ==> editing == old(editing) && editMsg == old(editMsg) && sent == old(sent)
      ensures old(editing).Some? && old(editing).value.id == selfId ==>
                editing == old(editing) && editMsg == "Cannot change your own role" && sent == old(sent)
      ensures old(editing).Some? && old(editing).value.id != selfId ==>
                sent == old(sent) + [RoleRequest(old(editing).value.id, newRole)] &&
                if outcome.Failure? then
                  editing == old(editing) && editMsg == JsString(Or(Some(outcome.msg), Str("Failed to update role")))
                else
                  editing == None && editMsg == ""
    {
      if editing.None? {
        return;
      }
      var user := editing.value;
      if user.id == selfId {
        editMsg := "Cannot change your own role";
        return;
      }
      sent := sent + [RoleRequest(user.id, newRole)];
      if outcome.Failure? {
        editMsg := JsString(Or(Some(outcome.msg), Str("Failed to update role")));
        return;
      }
      editing := None;
      editMsg := "";
    }
  }
}
