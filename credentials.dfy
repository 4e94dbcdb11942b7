/**
 * The persisted credentials document, the file that holds it, and the three
 * changes the commands make to its map of named services.
 */
module Credentials {
  import opened Wrappers
  import opened Json
  import opened Responses

  /** One registered service (mobile line), under a user-chosen name. */
  datatype ServiceRecord = ServiceRecord(
    serviceType: string,
    serviceId: string,
    packageCategoryId: string,
    credentials: map<string, string>)

  /** The credentials document written at signup and rewritten by every change. */
  datatype Document = Document(
    deviceId: string,
    phoneNum: string,
    clientId: string,
    clientSecret: string,
    token: string,
    refreshToken: string,
    services: map<string, ServiceRecord>)

  /** The JSON object stored for one service record. */
  function RecordObject(r: ServiceRecord): map<string, Value> {
    map["service_type" := JStr(r.serviceType), "service_id" := JStr(r.serviceId),
        "package_category_id" := JStr(r.packageCategoryId),
        "credentials" := JObj(map k | k in r.credentials :: JStr(r.credentials[k]))]
  }

  /** The JSON object the file holds for a document, keyed as `signup` writes it. */
  function DocumentObject(d: Document): map<string, Value> {
    map["device_id" := JStr(d.deviceId), "phone_num" := JStr(d.phoneNum),
        "client_id" := JStr(d.clientId), "client_secret" := JStr(d.clientSecret),
        "token" := JStr(d.token), "refresh_token" := JStr(d.refreshToken),
        "services" := JObj(map name | name in d.services :: JObj(RecordObject(d.services[name])))]
  }

  /** What `get_credentials` returns: the stored object, or the empty object when there is no file. */
  function LoadedObject(contents: Option<Document>): map<string, Value> {
    if contents.Some? then DocumentObject(contents.value) else map[]
  }

  /**
   * `check_if_signed_up`: a `token` key is present in the loaded object. The
   * program only ever writes complete documents, so the key is present
   * exactly when there is a document at all.
   */
  predicate CheckIfSignedUp(loaded: Option<Document>)
    ensures CheckIfSignedUp(loaded) <==> loaded.Some?
  {
    "token" in LoadedObject(loaded)
  }

  /** The credentials file. `writable` says whether opening it for writing succeeds. */
  class CredentialFile {
    const path: string
    const writable: bool
    var contents: Option<Document>

    constructor (path: string, writable: bool, contents: Option<Document>)
      ensures this.path == path && this.writable == writable && this.contents == contents
    {
      this.path := path;
      this.writable := writable;
      this.contents := contents;
    }

    /** `get_credentials`. */
    method Load() returns (loaded: Option<Document>)
      ensures loaded == contents
    {
      loaded := contents;
    }

    /** `update_credentials`: replaces the whole document, or fails naming the file. */
    method Save(d: Document) returns (r: Result<Document>)
      modifies this
      ensures writable ==> contents == Some(d) && r == Ok(d)
      ensures !writable ==> contents == old(contents) && r == Err(SaveFailure(path))
    {
      if writable {
        contents := Some(d);
        r := Ok(d);
      } else {
        r := Err(SaveFailure(path));
      }
    }

    /** `os.remove` of the file. */
    method Remove()
      modifies this
      ensures contents == None
    {
      contents := None;
    }
  }

  function SaveFailure(path: string): Failure {
    Fatal(JStr("Couldn't access the credentials file at " + path))
  }

  /**
   * Saving and then loading gives back the saved document. The file holds
   * the document itself, not its JSON text, so this is a statement about the
   * file's state, not a round trip through the serialisation.
   */
  method SaveThenLoad(file: CredentialFile, d: Document) returns (loaded: Option<Document>)
    requires file.writable
    modifies file
    ensures loaded == Some(d)
  {
    var _ := file.Save(d);
    loaded := file.Load();
  }

  /** `services[name] = record` after the duplicate check of `add`. */
  function WithService(services: map<string, ServiceRecord>, name: string, record: ServiceRecord): (r: map<string, ServiceRecord>)
    requires name !in services
    ensures r.Keys == services.Keys + {name}
    ensures r[name] == record
    ensures forall k :: k in services ==> r[k] == services[k]
    ensures |r| == |services| + 1
  {
    services[name := record]
  }

  /** `del services[name]`. */
  function WithoutService(services: map<string, ServiceRecord>, name: string): (r: map<string, ServiceRecord>)
    requires name in services
    ensures r.Keys == services.Keys - {name}
    ensures forall k :: k in r ==> r[k] == services[k]
    ensures |r| == |services| - 1
  {
    services - {name}
  }

  /** `services[new] = services.pop(old)` after the duplicate check of `rename`. */
  function Renamed(services: map<string, ServiceRecord>, from: string, to: string): (r: map<string, ServiceRecord>)
    requires from in services && to !in services
    ensures r.Keys == services.Keys - {from} + {to}
    ensures r[to] == services[from]
    ensures forall k :: k in services && k != from ==> r[k] == services[k]
    ensures |r| == |services|
  {
    var popped := services[from];
    var rest := services - {from};
    assert |rest| == |services| - 1;
    rest[to := popped]
  }

  /** Renaming back restores the map. */
  lemma RenameRoundTrip(services: map<string, ServiceRecord>, from: string, to: string)
    requires from in services && to !in services
    ensures to in Renamed(services, from, to) && from !in Renamed(services, from, to)
    ensures Renamed(Renamed(services, from, to), to, from) == services
  {
  }

  /** Removing a service just added restores the map. */
  lemma AddRemoveRoundTrip(services: map<string, ServiceRecord>, name: string, record: ServiceRecord)
    requires name !in services
    ensures WithoutService(WithService(services, name, record), name) == services
  {
  }

  /** Renaming keeps every record, including its provider `serviceId`; only the handle changes. */
  lemma RenameKeepsRecords(services: map<string, ServiceRecord>, from: string, to: string)
    requires from in services && to !in services
    ensures Renamed(services, from, to).Values == services.Values
  {
    var r := Renamed(services, from, to);
    forall v | v in services.Values ensures v in r.Values {
      var k :| k in services && services[k] == v;
      if k == from { assert r[to] == v; } else { assert r[k] == v; }
    }
    forall v | v in r.Values ensures v in services.Values {
      var k :| k in r && r[k] == v;
      if k == to { assert services[from] == v; } else { assert services[k] == v; }
    }
  }
}
