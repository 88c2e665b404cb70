/** The admin settings page: the profile fields taken from the signed-in
    admin and the password change with its checks. */
module AdminSettings {
  import opened Wrappers

  /** The signed-in admin as the auth context holds it; each field may be missing. */
  datatype Admin = Admin(name: Option<string>, username: Option<string>, mobileNumber: Option<string>)

  datatype ProfileData = ProfileData(name: string, username: string, mobileNumber: string)

  datatype PasswordData = PasswordData(currentPassword: string, newPassword: string, confirmPassword: string)

  const EmptyPasswords := PasswordData("", "", "")

  /** The request sent to change the password. */
  datatype PasswordRequest = PasswordRequest(username: string, password: string, newPassword: string, role: string)

  /** The result of the checks: an error message, or the request to send. */
  datatype PasswordCheck = Refused(message: string) | Send(request: PasswordRequest)

  /** `handlePasswordChange`'s checks, in their order: the confirmation must
      match (checked first), then the new password must have at least 6
      characters. The request carries the admin's username, '' when there is
      none, the current and the new password and the role 'admin'. */
  function CheckPasswordChange(admin: Option<Admin>, data: PasswordData): (r: PasswordCheck)
    ensures data.newPassword != data.confirmPassword ==> r == Refused("New passwords do not match")
    ensures data.newPassword == data.confirmPassword && |data.newPassword| < 6 ==>
      r == Refused("Password must be at least 6 characters long")
    ensures r.Send? <==> data.newPassword == data.confirmPassword && |data.newPassword| >= 6
    ensures r.Send? ==>
      && r.request.password == data.currentPassword && r.request.newPassword == data.newPassword
      && r.request.role == "admin"
      && (admin.Some? && admin.value.username.Some? ==> r.request.username == admin.value.username.value)
      && (admin.None? || admin.value.username.None? ==> r.request.username == "")
  {
    if data.newPassword != data.confirmPassword then Refused("New passwords do not match")
    else if |data.newPassword| < 6 then Refused("Password must be at least 6 characters long")
    else
      var username := if admin.Some? then admin.value.username.GetOr("") else "";
      Send(PasswordRequest(username, data.currentPassword, data.newPassword, "admin"))
  }

  /** The length limit is exactly 6: five characters are refused, six accepted;
      and a short password that does not match is reported as a mismatch. */
  lemma PasswordBoundary(admin: Option<Admin>, current: string)
    ensures CheckPasswordChange(admin, PasswordData(current, "abcdef", "abcdef")).Send?
    ensures CheckPasswordChange(admin, PasswordData(current, "abcde", "abcde")) == Refused("Password must be at least 6 characters long")
    ensures CheckPasswordChange(admin, PasswordData(current, "abc", "abd")) == Refused("New passwords do not match")
  {
  }

  /** The profile fields filled from the admin, a missing field as ''. */
  function ProfileOf(admin: Admin): (r: ProfileData)
    ensures r.name == admin.name.GetOr("") && r.username == admin.username.GetOr("")
    ensures r.mobileNumber == admin.mobileNumber.GetOr("")
  {
    ProfileData(admin.name.GetOr(""), admin.username.GetOr(""), admin.mobileNumber.GetOr(""))
  }

  /** The page's state. */
  class SettingsPage {
    var profileData: ProfileData
    var passwordData: PasswordData
    var loading: bool

    constructor ()
      ensures profileData == ProfileData("", "", "") && passwordData == EmptyPasswords && !loading
    {
      profileData, passwordData, loading := ProfileData("", "", ""), EmptyPasswords, false;
    }

    /** The effect run when the admin changes: without an admin nothing changes. */
    method SyncProfile(admin: Option<Admin>)
      modifies this
      ensures admin.Some? ==> profileData == ProfileOf(admin.value)
      ensures admin.None? ==> profileData == old(profileData)
      ensures passwordData == old(passwordData) && loading == old(loading)
    {
      if admin.Some? {
        profileData := ProfileOf(admin.value);
      }
    }

    /** `handlePasswordChange`: the checks' verdict is returned; a refused
        change sends nothing and changes nothing. When the request is sent and
        the service accepts (`ok`) the three fields are cleared; otherwise they
        are kept. */
    method HandlePasswordChange(admin: Option<Admin>, ok: bool) returns (check: PasswordCheck)
      modifies this
      ensures check == CheckPasswordChange(admin, old(passwordData))
      ensures check.Send? && ok ==> passwordData == EmptyPasswords
      ensures !(check.Send? && ok) ==> passwordData == old(passwordData)
      ensures check.Send? ==> !loading
      ensures check.Refused? ==> loading == old(loading)
      ensures profileData == old(profileData)
    {
      check := CheckPasswordChange(admin, passwordData);
      if check.Refused? {
        return;
      }
      loading := true;
      if ok {
        passwordData := EmptyPasswords;
      }
      loading := false;
    }
  }
}
