/** The pure access decisions of the auth service: the permission matrix for
    session roles, the resource matcher for share tokens, and the small
    header helpers the handlers share. */
module Access {
  import opened Text
  import opened Wrappers
  import opened Tokens

  /** Request headers as received from the reverse proxy. */
  type Headers = map<string, string>

  /** `request.headers.get(name, default)` */
  function Header(h: Headers, name: string, default: string): (v: string)
    ensures name in h ==> v == h[name]
    ensures name !in h ==> v == default
  {
    if name in h then h[name] else default
  }

  /** The session markers the proxy sends in place of a token, and the role each stands for. */
  const UserRoles: map<string, string> :=
    map["admin" := "admin-role", "doctor" := "doctor-role", "external" := "external-role"]

  /** The four levels of the imaging hierarchy. */
  predicate IsImagingLevel(level: string) {
    level == "patient" || level == "study" || level == "series" || level == "instance"
  }

  /** `check_permission_for_role`: admins may do everything; doctors may read
      and upload at every level and create share tokens; external users may
      only read imaging data. Method names arrive in lower case. */
  function CheckPermissionForRole(role: string, level: string, verb: string, uri: string): (granted: bool)
    ensures role == "admin-role" ==> granted
    ensures granted ==> role in UserRoles.Values
    ensures role == "external-role" && (verb != "get" || level == "system") ==> !granted
    ensures role == "external-role" && verb == "get" ==> (granted <==> IsImagingLevel(level))
    ensures role == "doctor-role" && (verb == "get" || verb == "post") ==>
              (granted <==> IsImagingLevel(level) || level == "system")
    ensures role == "doctor-role" && verb == "put" ==> (granted <==> Contains(uri, "tokens"))
    ensures role == "doctor-role" && verb != "get" && verb != "post" && verb != "put" ==> !granted
  {
    assert UserRoles["admin"] == "admin-role" && UserRoles["doctor"] == "doctor-role" && UserRoles["external"] == "external-role";
    if role == "admin-role" then true
    else if role == "doctor-role" then
      ((verb == "get" || verb == "post") && (IsImagingLevel(level) || level == "system"))
      || (verb == "put" && Contains(uri, "tokens"))
    else if role == "external-role" then
      verb == "get" && IsImagingLevel(level)
    else false
  }

  /** Privileges are nested: whatever an external user may do a doctor may do,
      and whatever a doctor may do an admin may do. */
  lemma RolesAreNested(level: string, verb: string, uri: string)
    ensures CheckPermissionForRole("external-role", level, verb, uri) ==>
              CheckPermissionForRole("doctor-role", level, verb, uri)
    ensures CheckPermissionForRole("doctor-role", level, verb, uri) ==>
              CheckPermissionForRole("admin-role", level, verb, uri)
  {
  }

  /** The system endpoints a viewer needs before it opens a shared study. */
  predicate SystemUriAllowed(uri: string) {
    Contains(uri, "/system") || Contains(uri, "/plugins") || Contains(uri, "/dicom-web/servers")
  }

  /** One granted resource covers the request: either identifier is equal
      (an absent identifier reads as the empty string), or the granted
      resource is a study and the request is for a series or an instance, or
      it is a series and the request is for an instance. The last two are
      taken on trust: the imaging server is never asked whether the requested
      item really belongs to the granted one. */
  predicate Covers(res: Resource, level: string, orthancId: string, dicomUid: string) {
    || orthancId == OrthancIdOf(res)
    || dicomUid == DicomUidOf(res)
    || (LevelOf(res) == "study" && (level == "series" || level == "instance"))
    || (LevelOf(res) == "series" && level == "instance")
  }

  /** The loop over the token's resources, returning at the first that covers the request. */
  function AnyCovers(resources: seq<Resource>, level: string, orthancId: string, dicomUid: string): (r: bool)
    ensures r <==> exists i :: 0 <= i < |resources| && Covers(resources[i], level, orthancId, dicomUid)
  {
    if resources == [] then false
    else if Covers(resources[0], level, orthancId, dicomUid) then true
    else
      var rest := AnyCovers(resources[1..], level, orthancId, dicomUid);
      assert forall i :: 1 <= i < |resources| ==> resources[i] == resources[1..][i - 1];
      rest
  }

  /** `check_resource_access`: share tokens are read-only; at system level only
      the viewer's bootstrap endpoints are open; otherwise some granted
      resource must cover the request. */
  function CheckResourceAccess(resources: seq<Resource>, level: string, verb: string,
                               orthancId: string, dicomUid: string, uri: string): (granted: bool)
    ensures verb != "get" ==> !granted
    ensures verb == "get" && level == "system" ==> (granted <==> SystemUriAllowed(uri))
    ensures verb == "get" && level != "system" ==>
              (granted <==> exists i :: 0 <= i < |resources| && Covers(resources[i], level, orthancId, dicomUid))
    ensures level != "system" && resources == [] ==> !granted
  {
    if verb != "get" then false
    else if level == "system" then SystemUriAllowed(uri)
    else AnyCovers(resources, level, orthancId, dicomUid)
  }

  /** The unverified hierarchy: a token granting one study opens, for reading,
      every series and instance, whatever identifiers the request carries. */
  lemma StudyTokenOpensAnySeriesOrInstance(resources: seq<Resource>, i: nat, level: string,
                                           orthancId: string, dicomUid: string, uri: string)
    requires i < |resources| && LevelOf(resources[i]) == "study"
    requires level == "series" || level == "instance"
    ensures CheckResourceAccess(resources, level, "get", orthancId, dicomUid, uri)
  {
    assert Covers(resources[i], level, orthancId, dicomUid);
  }

  /** Absent identifiers compare equal to empty ones: a granted resource that
      carries no DICOM UID covers every read whose request has an empty DICOM
      UID, at any non-system level. */
  lemma MissingUidMatchesEmptyUid(resources: seq<Resource>, i: nat, level: string,
                                  orthancId: string, uri: string)
    requires i < |resources| && "DicomUid" !in resources[i] && "dicom-uid" !in resources[i]
    requires level != "system"
    ensures CheckResourceAccess(resources, level, "get", orthancId, "", uri)
  {
    assert Covers(resources[i], level, orthancId, "");
  }

  /** `normalize_bearer_token`: strips one leading "Bearer " and nothing else. */
  function NormalizeBearerToken(v: string): (r: string)
    ensures StartsWith(v, "Bearer ") ==> v == "Bearer " + r
    ensures !StartsWith(v, "Bearer ") ==> r == v
  {
    if StartsWith(v, "Bearer ") then
      assert v == v[..7] + v[7..];
      v[7..]
    else v
  }

  /** `verify_admin_auth`: the caller's groups must mention "admin"; the answer
      is the calling user, "unknown" when the proxy sent none. */
  function VerifyAdminAuth(h: Headers): (r: Result<string, int>)
    ensures r.Ok? <==> Contains(Header(h, "Remote-Groups", ""), "admin")
    ensures r.Ok? ==> r.value == Header(h, "Remote-User", "unknown")
    ensures r.Err? ==> r.error == 403
  {
    if Contains(Header(h, "Remote-Groups", ""), "admin") then Ok(Header(h, "Remote-User", "unknown"))
    else Err(403)
  }

  /** `get_base_url`: https exactly when the proxy says so, then the Host
      header, "localhost" when there is none. */
  function GetBaseUrl(h: Headers): (url: string)
    ensures var host := Header(h, "Host", "localhost");
            |host| <= |url| && url[|url| - |host|..] == host
    ensures StartsWith(url, "https://") <==> Header(h, "X-Forwarded-Proto", "") == "https"
    ensures url == (if Header(h, "X-Forwarded-Proto", "") == "https" then "https://" else "http://")
                   + Header(h, "Host", "localhost")
  {
    var scheme := if Header(h, "X-Forwarded-Proto", "") == "https" then "https" else "http";
    var url := scheme + "://" + Header(h, "Host", "localhost");
    assert scheme == "http" ==> !StartsWith(url, "https://") by {
      if scheme == "http" { assert url[4] == ':'; }
    }
    url
  }

  datatype Profile = Profile(name: string, permissions: seq<string>, validity: int)

  const AdminPermissions: seq<string> :=
    ["view", "download", "upload", "delete", "modify", "anonymize", "share", "send", "settings", "edit-labels"]
  const DoctorPermissions: seq<string> := ["view", "download", "upload", "share", "send", "edit-labels"]
  const ExternalPermissions: seq<string> := ["view", "download"]

  /** The permission mapping of `get_user_profile`: the token value carries the
      caller's group; "admin" anywhere in it gives every permission, else
      "doctor" gives everything except deleting, modifying, anonymizing and
      settings, else only viewing and downloading. */
  function UserProfile(tokenValue: string): (p: Profile)
    ensures var g := NormalizeBearerToken(tokenValue);
            && (Contains(g, "admin") ==>
                  p == Profile("Administrator", AdminPermissions, CacheValidityShareToken))
            && (!Contains(g, "admin") && Contains(g, "doctor") ==>
                  p == Profile("Doctor", DoctorPermissions, CacheValidityShareToken))
            && (!Contains(g, "admin") && !Contains(g, "doctor") ==>
                  p == Profile("External User", ExternalPermissions, CacheValidityShareToken))
    ensures forall x :: x in p.permissions ==> x in AdminPermissions
    ensures "view" in p.permissions && "download" in p.permissions
    ensures "delete" in p.permissions <==> Contains(NormalizeBearerToken(tokenValue), "admin")
    ensures "modify" in p.permissions <==> Contains(NormalizeBearerToken(tokenValue), "admin")
    ensures "share" in p.permissions <==>
              Contains(NormalizeBearerToken(tokenValue), "admin") || Contains(NormalizeBearerToken(tokenValue), "doctor")
  {
    var group := NormalizeBearerToken(tokenValue);
    if Contains(group, "admin") then
      Profile("Administrator", AdminPermissions, CacheValidityShareToken)
    else if Contains(group, "doctor") then
      Profile("Doctor", DoctorPermissions, CacheValidityShareToken)
    else
      Profile("External User", ExternalPermissions, CacheValidityShareToken)
  }
}
