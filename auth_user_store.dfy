/** The `authUser` session store: one cached user record, mirrored into a
    durable key/value slot under the key `'userData'`, a role derived from
    its `is_admin` flag, and the actions that refresh, update, replace the
    avatar of, log in and reset it.

    The auth provider's calls are not modelled: each action receives the
    provider's response as a parameter. */
module AuthUserStore {
  import opened Optional
  import opened JsValues

  /** The cached user: `{ id, email, ...user_metadata }`. */
  type UserRecord = Object

  /** A provider error object; every error object is truthy. */
  datatype ErrorInfo = ErrorInfo(message: string)

  /** The provider's user: its id, its email (which may be missing) and its
      `user_metadata` object (which may be missing). */
  datatype ProviderUser = ProviderUser(id: string, email: Option<string>, userMetadata: Option<Entries>)

  /** `{ data: { user }, error }`, as `auth.getUser`, `auth.updateUser` and
      `auth.signInWithPassword` answer; `user` is `null` when absent. */
  datatype AuthResponse = AuthResponse(user: Option<ProviderUser>, error: Option<ErrorInfo>)

  /** `{ data, error }` from the storage upload; `data` carries the stored
      object's path. */
  datatype UploadResponse = UploadResponse(data: Option<string>, error: Option<ErrorInfo>)

  /** What an action's promise resolves to: `undefined`, `{ error }` or
      `{ data }`. */
  datatype ActionResult = Nothing | Failed(error: ErrorInfo) | Data(data: UserRecord)

  /** Whether an action's promise rejected (a property read on `null` threw
      a TypeError) or resolved. */
  datatype Outcome = Threw | Returned(result: ActionResult)

  datatype Role = User | Administrator

  /** The entries that `...user_metadata` copies: none for a missing object. */
  function MetadataEntries(md: Option<Entries>): Entries
  {
    if md.Some? then md.value else []
  }

  function EmailValue(email: Option<string>): Value
  {
    if email.Some? then Str(email.value) else Undef
  }

  /** `{ id, email, ...user_metadata }`: id and email first, then every
      metadata property, so a metadata key `id` or `email` overrides the
      provider's top-level value. */
  function RecordOf(u: ProviderUser): (r: UserRecord)
    ensures r.Keys == {"id", "email"} + KeysOf(MetadataEntries(u.userMetadata))
  {
    Spread(map["id" := Str(u.id), "email" := EmailValue(u.email)], MetadataEntries(u.userMetadata))
  }

  /** The `userRole` getter: `userData?.is_admin ? 'Administrator' : 'User'`. */
  function UserRole(userData: Option<UserRecord>): (role: Role)
    ensures userData.None? ==> role == User
    ensures userData.Some? ==> (role == Administrator <==> "is_admin" in userData.value && Truthy(userData.value["is_admin"]))
  {
    if userData.Some? && Truthy(Get(userData.value, "is_admin")) then Administrator else User
  }

  /** The provider's metadata makes the user an administrator: its last
      `is_admin` entry holds a truthy value. */
  ghost predicate MetadataGrantsAdmin(md: Option<Entries>)
  {
    var es := MetadataEntries(md);
    exists i :: IsLastWithKey(es, i) && es[i].0 == "is_admin" && Truthy(es[i].1)
  }

  /** A top-level field that no metadata entry overrides keeps the
      provider's value. */
  lemma RecordIdentity(u: ProviderUser)
    ensures "id" !in KeysOf(MetadataEntries(u.userMetadata)) ==> RecordOf(u)["id"] == Str(u.id)
    ensures "email" !in KeysOf(MetadataEntries(u.userMetadata)) ==> RecordOf(u)["email"] == EmailValue(u.email)
  {
    var es := MetadataEntries(u.userMetadata);
    var base := map["id" := Str(u.id), "email" := EmailValue(u.email)];
    if "id" !in KeysOf(es) {
      SpreadKeeps(base, es, "id");
    }
    if "email" !in KeysOf(es) {
      SpreadKeeps(base, es, "email");
    }
  }

  /** Each metadata property lands in the record with the value of its last
      occurrence, whatever its key, `id` and `email` included. */
  lemma RecordMetadataWins(u: ProviderUser, i: int)
    requires IsLastWithKey(MetadataEntries(u.userMetadata), i)
    ensures var e := MetadataEntries(u.userMetadata)[i]; e.0 in RecordOf(u) && RecordOf(u)[e.0] == e.1
  {
    SpreadLastWins(map["id" := Str(u.id), "email" := EmailValue(u.email)], MetadataEntries(u.userMetadata), i);
  }

  /** The role derived from a freshly built record follows the provider's
      metadata and nothing else: neither id nor email can grant it. */
  lemma RoleFromMetadata(u: ProviderUser)
    ensures UserRole(Some(RecordOf(u))) == Administrator <==> MetadataGrantsAdmin(u.userMetadata)
  {
    var es := MetadataEntries(u.userMetadata);
    var r := RecordOf(u);
    if "is_admin" in KeysOf(es) {
      var i := LastOccurrence(es, "is_admin");
      RecordMetadataWins(u, i);
    } else {
      assert "is_admin" !in r;
      forall j | IsLastWithKey(es, j) ensures es[j].0 != "is_admin" {
        assert es[j].0 in KeysOf(es);
      }
    }
  }

  /** The object path of a user's avatar: `'avatars/' + id + '-avatar.png'`. */
  function AvatarPath(id: Value): string
  {
    "avatars/" + ToJsString(id) + "-avatar.png"
  }

  /** For a record built from a provider user whose metadata does not
      override `id`, the avatar path names the provider's id. */
  lemma AvatarPathOfRecord(u: ProviderUser)
    requires "id" !in KeysOf(MetadataEntries(u.userMetadata))
    ensures AvatarPath(Get(RecordOf(u), "id")) == "avatars/" + u.id + "-avatar.png"
  {
    RecordIdentity(u);
  }

  /** The effect of `updateUserInformation` given the provider's answer:
      a missing user object throws before `error` is looked at; an error
      leaves the record; a user with metadata replaces it with the server's
      id, email and metadata; a user without metadata leaves it and resolves
      to `undefined`. */
  ghost predicate UpdateUserInformationEffect(before: Option<UserRecord>, response: AuthResponse,
                                             after: Option<UserRecord>, outcome: Outcome)
  {
    match response.user
    case None => after == before && outcome == Threw
    case Some(u) =>
      if response.error.Some? then after == before && outcome == Returned(Failed(response.error.value))
      else if u.userMetadata.Some? then after == Some(RecordOf(u)) && outcome == Returned(Data(RecordOf(u)))
      else after == before && outcome == Returned(Nothing)
  }

  /** The store. `stored` is the durable slot under `'userData'`: `None` when
      the key is absent. */
  class Store {
    var userData: Option<UserRecord>
    var stored: Option<UserRecord>

    /** The durable copy mirrors the in-memory one. */
    ghost predicate Valid()
      reads this
    {
      stored == userData
    }

    /** Start-up: the record is read back from the durable slot, or is null
        when the slot is empty. */
    constructor (persisted: Option<UserRecord>)
      ensures Valid()
      ensures userData == persisted && stored == persisted
    {
      userData := persisted;
      stored := persisted;
    }

    /** An assignment to `userData` followed by the watcher: a record is
        written under the key, null removes the key. */
    method Assign(v: Option<UserRecord>)
      requires Valid()
      modifies this
      ensures userData == v && stored == v
    {
      userData := v;
      match v {
        case Some(r) => stored := Some(r);
        case None => stored := None;
      }
    }

    /** `$reset`: the record becomes null and the key is removed; calling it
        again leaves the same state. */
    method Reset()
      requires Valid()
      modifies this
      ensures Valid()
      ensures userData == None && stored == None
    {
      Assign(None);
    }

    /** `getUserInformation`: the provider's user replaces the record with
        `{ id, email, ...user_metadata }`; the response's error is never
        consulted, and a missing user object throws with nothing changed. */
    method GetUserInformation(response: AuthResponse) returns (outcome: Outcome)
      requires Valid()
      modifies this
      ensures Valid()
      ensures response.user.None? ==> outcome == Threw && userData == old(userData)
      ensures response.user.Some? ==> outcome == Returned(Nothing) && userData == Some(RecordOf(response.user.value))
    {
      match response.user {
        case None =>
          outcome := Threw;
        case Some(u) =>
          Assign(Some(RecordOf(u)));
          outcome := Returned(Nothing);
      }
    }

    /** `updateUserInformation(updatedData)`: `updatedData` is sent to the
        provider; what is cached afterwards is the server's user, never the
        client's patch. */
    method UpdateUserInformation(updatedData: UserRecord, response: AuthResponse) returns (outcome: Outcome)
      requires Valid()
      modifies this
      ensures Valid()
      ensures UpdateUserInformationEffect(old(userData), response, userData, outcome)
    {
      match response.user {
        case None =>
          outcome := Threw;
        case Some(u) =>
          if response.error.Some? {
            outcome := Returned(Failed(response.error.value));
          } else if u.userMetadata.Some? {
            Assign(Some(RecordOf(u)));
            outcome := Returned(Data(RecordOf(u)));
          } else {
            outcome := Returned(Nothing);
          }
      }
    }

    /** `updateUserImage(file)`: reads the cached id (throwing when there is
        no record), uploads to the avatar path, and on success hands the
        cached record with `image_url` set to the public URL to
        `updateUserInformation`, whose effect is the final one. `path` is
        where the upload went and `patch` what was sent to the provider. */
    method UpdateUserImage(upload: UploadResponse, publicUrl: string, update: AuthResponse)
      returns (outcome: Outcome, path: Option<string>, patch: Option<UserRecord>)
      requires Valid()
      modifies this
      ensures Valid()
      ensures old(userData).None? ==> outcome == Threw && path == None && patch == None && userData == old(userData)
      ensures old(userData).Some? ==> path == Some(AvatarPath(Get(old(userData).value, "id")))
      ensures old(userData).Some? && upload.error.Some? ==>
                outcome == Returned(Failed(upload.error.value)) && patch == None && userData == old(userData)
      ensures old(userData).Some? && upload.error.None? && upload.data.None? ==>
                outcome == Returned(Nothing) && patch == None && userData == old(userData)
      ensures old(userData).Some? && upload.error.None? && upload.data.Some? ==>
                && patch == Some(old(userData).value["image_url" := Str(publicUrl)])
                && UpdateUserInformationEffect(old(userData), update, userData, outcome)
    {
      patch := None;
      match userData {
        case None =>
          outcome, path := Threw, None;
        case Some(current) =>
          path := Some(AvatarPath(Get(current, "id")));
          if upload.error.Some? {
            outcome := Returned(Failed(upload.error.value));
          } else if upload.data.Some? {
            var sent := current["image_url" := Str(publicUrl)];
            patch := Some(sent);
            outcome := UpdateUserInformation(sent, update);
          } else {
            outcome := Returned(Nothing);
          }
      }
    }

    /** `login({ email, password })`: an error is returned with nothing
        changed; a signed-in user triggers `getUserInformation` and the
        refreshed record is returned; with neither, nothing happens. */
    method Login(signIn: AuthResponse, refresh: AuthResponse) returns (outcome: Outcome)
      requires Valid()
      modifies this
      ensures Valid()
      ensures signIn.error.Some? ==> outcome == Returned(Failed(signIn.error.value)) && userData == old(userData)
      ensures signIn.error.None? && signIn.user.None? ==> outcome == Returned(Nothing) && userData == old(userData)
      ensures signIn.error.None? && signIn.user.Some? && refresh.user.None? ==>
                outcome == Threw && userData == old(userData)
      ensures signIn.error.None? && signIn.user.Some? && refresh.user.Some? ==>
                && userData == Some(RecordOf(refresh.user.value))
                && outcome == Returned(Data(RecordOf(refresh.user.value)))
    {
      if signIn.error.Some? {
        outcome := Returned(Failed(signIn.error.value));
      } else if signIn.user.Some? {
        var refreshed := GetUserInformation(refresh);
        if refreshed == Threw {
          outcome := Threw;
        } else {
          outcome := Returned(Data(userData.value));
        }
      } else {
        outcome := Returned(Nothing);
      }
    }
  }
}

/** A caller's view: what the contracts alone let a page conclude. */
module AuthUserClient {
  import opened Optional
  import opened JsValues
  import opened AuthUserStore

  method LoginAsAdministratorThenReset(id: string)
  {
    var store := new Store(None);
    var admin := ProviderUser(id, Some("cook@example.com"), Some([("is_admin", Bool(true)), ("name", Str("Cook"))]));
    var outcome := store.Login(AuthResponse(Some(admin), None), AuthResponse(Some(admin), None));
    assert outcome == Returned(Data(RecordOf(admin)));
    assert store.stored == Some(RecordOf(admin));
    RecordMetadataWins(admin, 0);
    assert UserRole(store.userData) == Administrator;

    var failed := store.Login(AuthResponse(None, Some(ErrorInfo("Invalid login credentials"))), AuthResponse(None, None));
    assert failed.Returned? && store.userData == Some(RecordOf(admin));

    store.Reset();
    store.Reset();
    assert store.userData == None && store.stored == None;
    assert UserRole(store.userData) == User;
  }
}
