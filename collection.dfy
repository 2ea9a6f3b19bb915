/** The collection endpoints of src/endpoints/collection.rs. Each operation
    is one delegating call; it is modelled as the `Endpoint` it hands to the
    client: method, path, query, body, the tier it requires and the
    envelope that reads the answer. `encode_path` (form-encoding of the
    user name) is a parameter. */
module Collection {
  import opened Wrappers
  import opened Text
  import opened JsonValues
  import opened Http
  import opened Credentials
  import opened Errors
  import Models
  import opened Client

  /** `/users/{username}/collection` */
  function CollectionRoot(encode: Encoder, username: string): (p: string)
    ensures StartsWith(p, "/users/")
  {
    "/users/" + encode(username) + "/collection"
  }

  function FolderPath(encode: Encoder, username: string, folderId: U64): string {
    CollectionRoot(encode, username) + "/folders/" + DecimalString(folderId)
  }

  function InstancePath(encode: Encoder, username: string, folderId: U64, releaseId: U64, instanceId: U64): string {
    FolderPath(encode, username, folderId) + "/releases/" + DecimalString(releaseId)
      + "/instances/" + DecimalString(instanceId)
  }

  /** Folder 0 ("All") is public; every other folder needs the owner. */
  function FolderLevel(folderId: U64): (l: AuthLevel)
    ensures l == AuthLevel.None <==> folderId == 0
    ensures l == AuthLevel.User <==> folderId != 0
  {
    if folderId == 0 then AuthLevel.None else AuthLevel.User
  }

  /** The folder `add_release` files into when none is given. */
  const DEFAULT_FOLDER: U64 := 1

  // ---------------------------------------------------------------------
  // The operations

  /** `get_folders` */
  function GetFolders(encode: Encoder, username: string): (e: Endpoint)
    ensures e.call.verb == GET && e.call.required == AuthLevel.None && e.envelope == JsonEnvelope
    ensures e.call.path == CollectionRoot(encode, username) + "/folders"
    ensures e.call.query.None? && e.call.body.None?
  {
    Endpoint(Call(GET, CollectionRoot(encode, username) + "/folders", Option.None, Option.None, AuthLevel.None), JsonEnvelope)
  }

  /** `get_folder` */
  function GetFolder(encode: Encoder, username: string, folderId: U64): (e: Endpoint)
    ensures e.call.verb == GET && e.envelope == JsonEnvelope
    ensures e.call.required == AuthLevel.None <==> folderId == 0
    ensures e.call.required == AuthLevel.User <==> folderId != 0
    ensures e.call.path == FolderPath(encode, username, folderId)
    ensures e.call.query.None? && e.call.body.None?
  {
    Endpoint(Call(GET, FolderPath(encode, username, folderId), Option.None, Option.None, FolderLevel(folderId)), JsonEnvelope)
  }

  /** `add_folder` */
  function AddFolder(encode: Encoder, username: string, request: Models.AddFolderRequest): (e: Endpoint)
    ensures e.call.verb == POST && e.call.required == AuthLevel.User && e.envelope == JsonEnvelope
    ensures e.call.path == CollectionRoot(encode, username) + "/folders"
    ensures e.call.query.None? && e.call.body.Some? && Get(e.call.body.value, "name") == Some(Str(request.name))
  {
    Endpoint(Call(POST, CollectionRoot(encode, username) + "/folders", Option.None,
                  Some(Models.AddFolderRequestToJson(request)), AuthLevel.User), JsonEnvelope)
  }

  /** `set_folder_name` */
  function SetFolderName(encode: Encoder, username: string, folderId: U64, request: Models.AddFolderRequest): (e: Endpoint)
    ensures e.call.verb == POST && e.call.required == AuthLevel.User && e.envelope == JsonEnvelope
    ensures e.call.path == FolderPath(encode, username, folderId)
    ensures e.call.query.None? && e.call.body.Some? && Get(e.call.body.value, "name") == Some(Str(request.name))
  {
    Endpoint(Call(POST, FolderPath(encode, username, folderId), Option.None,
                  Some(Models.AddFolderRequestToJson(request)), AuthLevel.User), JsonEnvelope)
  }

  /** `delete_folder` */
  function DeleteFolder(encode: Encoder, username: string, folderId: U64): (e: Endpoint)
    ensures e.call.verb == DELETE && e.call.required == AuthLevel.User && e.envelope == EmptyEnvelope
    ensures e.call.path == FolderPath(encode, username, folderId)
    ensures e.call.query.None? && e.call.body.None?
  {
    Endpoint(Call(DELETE, FolderPath(encode, username, folderId), Option.None, Option.None, AuthLevel.User), EmptyEnvelope)
  }

  /** `get_releases`: the optional query is written in field order and reads
      back as the query given. */
  function GetReleases(encode: Encoder, username: string, folderId: U64, query: Option<Models.SortedPageQuery>): (e: Endpoint)
    ensures e.call.verb == GET && e.envelope == JsonEnvelope
    ensures e.call.required == AuthLevel.None <==> folderId == 0
    ensures e.call.required == AuthLevel.User <==> folderId != 0
    ensures e.call.path == FolderPath(encode, username, folderId) + "/releases"
    ensures e.call.query.Some? <==> query.Some?
    ensures query.Some? ==> Models.SortedPageQueryFromJson(Object(e.call.query.value)) == query
    ensures e.call.body.None?
  {
    Endpoint(Call(GET, FolderPath(encode, username, folderId) + "/releases", Models.WrittenSortedPageQuery(query),
                  Option.None, FolderLevel(folderId)), JsonEnvelope)
  }

  /** `get_release_instances` */
  function GetReleaseInstances(encode: Encoder, username: string, releaseId: U64): (e: Endpoint)
    ensures e.call.verb == GET && e.call.required == AuthLevel.None && e.envelope == JsonEnvelope
    ensures e.call.path == CollectionRoot(encode, username) + "/releases/" + DecimalString(releaseId)
    ensures e.call.query.None? && e.call.body.None?
  {
    Endpoint(Call(GET, CollectionRoot(encode, username) + "/releases/" + DecimalString(releaseId),
                  Option.None, Option.None, AuthLevel.None), JsonEnvelope)
  }

  /** `add_release`: into the given folder, or folder 1, with an empty JSON
      object as body. */
  function AddRelease(encode: Encoder, username: string, releaseId: U64, folderId: Option<U64>): (e: Endpoint)
    ensures e.call.verb == POST && e.call.required == AuthLevel.User && e.envelope == JsonEnvelope
    ensures e.call.path == FolderPath(encode, username, folderId.GetOr(DEFAULT_FOLDER)) + "/releases/" + DecimalString(releaseId)
    ensures e.call.query.None? && e.call.body == Some(Object([]))
  {
    var folder := folderId.GetOr(DEFAULT_FOLDER);
    Endpoint(Call(POST, FolderPath(encode, username, folder) + "/releases/" + DecimalString(releaseId),
                  Option.None, Some(Object([])), AuthLevel.User), JsonEnvelope)
  }

  /** `edit_release` */
  function EditRelease(encode: Encoder, username: string, folderId: U64, releaseId: U64, instanceId: U64,
                       request: Models.EditCollectionReleaseRequest): (e: Endpoint)
    ensures e.call.verb == POST && e.call.required == AuthLevel.User && e.envelope == EmptyEnvelope
    ensures e.call.path == InstancePath(encode, username, folderId, releaseId, instanceId)
    ensures e.call.query.None? && e.call.body.Some?
    ensures Get(e.call.body.value, "rating") == Models.OptNat(request.rating)
    ensures Get(e.call.body.value, "folder_id") == Models.OptNat(request.folderId)
  {
    Endpoint(Call(POST, InstancePath(encode, username, folderId, releaseId, instanceId), Option.None,
                  Some(Models.EditCollectionReleaseRequestToJson(request)), AuthLevel.User), EmptyEnvelope)
  }

  /** `remove_release` */
  function RemoveRelease(encode: Encoder, username: string, folderId: U64, releaseId: U64, instanceId: U64): (e: Endpoint)
    ensures e.call.verb == DELETE && e.call.required == AuthLevel.User && e.envelope == EmptyEnvelope
    ensures e.call.path == InstancePath(encode, username, folderId, releaseId, instanceId)
    ensures e.call.query.None? && e.call.body.None?
  {
    Endpoint(Call(DELETE, InstancePath(encode, username, folderId, releaseId, instanceId), Option.None,
                  Option.None, AuthLevel.User), EmptyEnvelope)
  }

  /** `get_fields` */
  function GetFields(encode: Encoder, username: string): (e: Endpoint)
    ensures e.call.verb == GET && e.call.required == AuthLevel.None && e.envelope == JsonEnvelope
    ensures e.call.path == CollectionRoot(encode, username) + "/fields"
    ensures e.call.query.None? && e.call.body.None?
  {
    Endpoint(Call(GET, CollectionRoot(encode, username) + "/fields", Option.None, Option.None, AuthLevel.None), JsonEnvelope)
  }

  /** `edit_instance_note`: the body's `value` is the text given. */
  function EditInstanceNote(encode: Encoder, username: string, folderId: U64, releaseId: U64, instanceId: U64,
                            fieldId: U64, value: string): (e: Endpoint)
    ensures e.call.verb == POST && e.call.required == AuthLevel.User && e.envelope == EmptyEnvelope
    ensures e.call.path == InstancePath(encode, username, folderId, releaseId, instanceId) + "/fields/" + DecimalString(fieldId)
    ensures e.call.query.None? && e.call.body.Some? && Get(e.call.body.value, "value") == Some(Str(value))
  {
    Endpoint(Call(POST, InstancePath(encode, username, folderId, releaseId, instanceId) + "/fields/" + DecimalString(fieldId),
                  Option.None, Some(Models.EditInstanceNoteRequestToJson(Models.EditInstanceNoteRequest(value))),
                  AuthLevel.User), EmptyEnvelope)
  }

  /** `get_value` */
  function GetValue(encode: Encoder, username: string): (e: Endpoint)
    ensures e.call.verb == GET && e.call.required == AuthLevel.User && e.envelope == JsonEnvelope
    ensures e.call.path == CollectionRoot(encode, username) + "/value"
    ensures e.call.query.None? && e.call.body.None?
  {
    Endpoint(Call(GET, CollectionRoot(encode, username) + "/value", Option.None, Option.None, AuthLevel.User), JsonEnvelope)
  }

  // ---------------------------------------------------------------------
  // Properties

  /** Distinct folders are addressed by distinct paths. */
  lemma FolderPathInjective(encode: Encoder, username: string, f: U64, g: U64)
    ensures FolderPath(encode, username, f) == FolderPath(encode, username, g) ==> f == g
  {
    var root := CollectionRoot(encode, username) + "/folders/";
    if FolderPath(encode, username, f) == FolderPath(encode, username, g) {
      assert root + DecimalString(f) == root + DecimalString(g);
      assert DecimalString(f) == (root + DecimalString(f))[|root|..];
      assert DecimalString(g) == (root + DecimalString(g))[|root|..];
      DecimalStringInjective(f, g);
    }
  }

  /** Leaving out the folder is the same as naming folder 1. */
  lemma AddReleaseDefaultsToFolderOne(encode: Encoder, username: string, releaseId: U64)
    ensures AddRelease(encode, username, releaseId, Option.None) == AddRelease(encode, username, releaseId, Some(1))
  {
  }

  /** Anonymous callers see folder 0 and nothing else: without credentials a
      folder read is sent exactly when it is folder 0, and any other folder
      fails with `AuthRequired(User, None)` before anything is sent. */
  lemma OnlyFolderZeroIsPublic(config: ClientConfig, encode: Encoder, username: string, folderId: U64, network: Network)
    requires config.auth.None?
    ensures var d := Send(config, GetFolder(encode, username, folderId).call, network);
      && (d.sent == [] <==> folderId != 0)
      && (folderId != 0 ==> d.result == Failure(AuthRequired(AuthLevel.User, AuthLevel.None)))
  {
    SendBound(config, GetFolder(encode, username, folderId).call, network);
  }

  /** Listing a folder's releases follows the same rule. */
  lemma OnlyFolderZeroReleasesArePublic(config: ClientConfig, encode: Encoder, username: string, folderId: U64,
                                        query: Option<Models.SortedPageQuery>, network: Network)
    requires config.auth.None?
    ensures var d := Send(config, GetReleases(encode, username, folderId, query).call, network);
      && (d.sent == [] <==> folderId != 0)
      && (folderId != 0 ==> d.result == Failure(AuthRequired(AuthLevel.User, AuthLevel.None)))
  {
    SendBound(config, GetReleases(encode, username, folderId, query).call, network);
  }

  /** Every operation that changes a collection uses a method other than
      GET and needs the owner's credentials (so, by `NeedsUserSendsNothing`,
      with anything less it sends nothing). */
  lemma WritesNeedUser(encode: Encoder, username: string, folderId: U64, releaseId: U64, instanceId: U64,
                       fieldId: U64, value: string, folder: Models.AddFolderRequest,
                       edit: Models.EditCollectionReleaseRequest, target: Option<U64>)
    ensures OwnerWrite(AddFolder(encode, username, folder))
    ensures OwnerWrite(SetFolderName(encode, username, folderId, folder))
    ensures OwnerWrite(DeleteFolder(encode, username, folderId))
    ensures OwnerWrite(AddRelease(encode, username, releaseId, target))
    ensures OwnerWrite(EditRelease(encode, username, folderId, releaseId, instanceId, edit))
    ensures OwnerWrite(RemoveRelease(encode, username, folderId, releaseId, instanceId))
    ensures OwnerWrite(EditInstanceNote(encode, username, folderId, releaseId, instanceId, fieldId, value))
  {
  }

  /** Reading the collection's value is the one read that needs the owner. */
  lemma ValueNeedsUser(config: ClientConfig, encode: Encoder, username: string, network: Network)
    requires Level(config.auth) != AuthLevel.User
    ensures Send(config, GetValue(encode, username).call, network)
            == Dispatch([], [], Failure(AuthRequired(AuthLevel.User, Level(config.auth))))
  {
    NeedsUserSendsNothing(config, GetValue(encode, username).call, network);
  }
}
