/** Which administrative controls the category and topic pages draw for the
    signed-in user. Both pages apply the same rules to their cards. */
module Gating {
  import opened Base
  import opened Entities

  /** The "Add" card: admin mode on and an admin role. */
  predicate ShowAddCard(user: Option<User>)
    ensures ShowAddCard(user) <==>
      user.Some? && user.value.adminMode == Some(true)
      && (user.value.role == RoleAdmin || user.value.role == RoleSuperAdmin)
  {
    AdminModeOn(user) && IsAdmin(user)
  }

  /** The edit and delete icons on a card: admin mode on and the card is
      modifiable. The role is not consulted. */
  predicate ShowCardControls(user: Option<User>, canModify: bool)
    ensures ShowCardControls(user, canModify) <==> user.Some? && user.value.adminMode == Some(true) && canModify
  {
    AdminModeOn(user) && canModify
  }

  /** The verification switch, drawn inside the card controls for a super
      admin only. */
  predicate ShowVerifySwitch(user: Option<User>, canModify: bool)
    ensures ShowVerifySwitch(user, canModify) <==>
      user.Some? && user.value.adminMode == Some(true) && canModify && user.value.role == RoleSuperAdmin
  {
    ShowCardControls(user, canModify) && HasRole(user, RoleSuperAdmin)
  }

  /** The verification filter button: super admins, whether or not admin
      mode is on. */
  predicate ShowFilterButton(user: Option<User>)
    ensures ShowFilterButton(user) <==> user.Some? && user.value.role == RoleSuperAdmin
  {
    HasRole(user, RoleSuperAdmin)
  }

  /** Nothing is drawn for a visitor; the add card and switch need an admin
      role, the switch a super admin; the switch sits among the card
      controls; and a plain user whose record has admin mode set still gets
      the edit and delete icons on modifiable cards. */
  lemma GatingLaws(user: Option<User>, canModify: bool)
    ensures user.None? ==>
      !ShowAddCard(user) && !ShowCardControls(user, canModify) && !ShowFilterButton(user)
    ensures ShowAddCard(user) ==> user.value.role != RoleUser
    ensures ShowVerifySwitch(user, canModify) ==>
      ShowCardControls(user, canModify) && user.value.role == RoleSuperAdmin
    ensures HasRole(user, RoleAdmin) ==> !ShowVerifySwitch(user, canModify) && !ShowFilterButton(user)
    ensures HasRole(user, RoleUser) && AdminModeOn(user) ==>
      !ShowAddCard(user) && (ShowCardControls(user, canModify) <==> canModify)
  {
  }
}
