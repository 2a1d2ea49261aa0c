/** The error taxonomy of the targetd daemon and the way failures travel
    through the client: a call either returns a value, raises a
    TargetdException (code and message), or fails with some other Python
    exception that the command line does not catch. */
module Exceptions {

  datatype Option<+T> = None | Some(value: T)

  // Common
  const INVALID: int := -1
  const NAME_CONFLICT: int := -50
  const NO_SUPPORT: int := -153
  const UNEXPECTED_EXIT_CODE: int := -303
  const INVALID_ARGUMENT: int := -32602

  // Specific to block storage
  const EXISTS_INITIATOR: int := -52
  const NOT_FOUND_VOLUME: int := -103
  const NOT_FOUND_VOLUME_EXPORT: int := -151
  const NOT_FOUND_VOLUME_GROUP: int := -152
  const NOT_FOUND_ACCESS_GROUP: int := -200
  const VOLUME_MASKED: int := -303
  const NO_FREE_HOST_LUN_ID: int := -1000

  // Specific to filesystems and NFS
  const EXISTS_CLONE_NAME: int := -51
  const EXISTS_FS_NAME: int := -53
  const NOT_FOUND_FS: int := -104
  const INVALID_POOL: int := -110
  const NOT_FOUND_SS: int := -112
  const NOT_FOUND_NFS_EXPORT: int := -400
  const NFS_NO_SUPPORT: int := -401

  /** The class attributes of TargetdException, by name. */
  const Taxonomy: map<string, int> := map[
    "INVALID" := INVALID, "NAME_CONFLICT" := NAME_CONFLICT,
    "NO_SUPPORT" := NO_SUPPORT, "UNEXPECTED_EXIT_CODE" := UNEXPECTED_EXIT_CODE,
    "INVALID_ARGUMENT" := INVALID_ARGUMENT, "EXISTS_INITIATOR" := EXISTS_INITIATOR,
    "NOT_FOUND_VOLUME" := NOT_FOUND_VOLUME, "NOT_FOUND_VOLUME_EXPORT" := NOT_FOUND_VOLUME_EXPORT,
    "NOT_FOUND_VOLUME_GROUP" := NOT_FOUND_VOLUME_GROUP,
    "NOT_FOUND_ACCESS_GROUP" := NOT_FOUND_ACCESS_GROUP, "VOLUME_MASKED" := VOLUME_MASKED,
    "NO_FREE_HOST_LUN_ID" := NO_FREE_HOST_LUN_ID, "EXISTS_CLONE_NAME" := EXISTS_CLONE_NAME,
    "EXISTS_FS_NAME" := EXISTS_FS_NAME, "NOT_FOUND_FS" := NOT_FOUND_FS,
    "INVALID_POOL" := INVALID_POOL, "NOT_FOUND_SS" := NOT_FOUND_SS,
    "NOT_FOUND_NFS_EXPORT" := NOT_FOUND_NFS_EXPORT, "NFS_NO_SUPPORT" := NFS_NO_SUPPORT]

  /** The name of a code, looked up in the order the taxonomy declares the
      codes: -303 is named UNEXPECTED_EXIT_CODE, its first declaration. */
  function NameOf(code: int): (name: Option<string>)
    ensures name.Some? ==> name.value in Taxonomy && Taxonomy[name.value] == code
  {
    if code == INVALID then Some("INVALID")
    else if code == NAME_CONFLICT then Some("NAME_CONFLICT")
    else if code == NO_SUPPORT then Some("NO_SUPPORT")
    else if code == UNEXPECTED_EXIT_CODE then Some("UNEXPECTED_EXIT_CODE")
    else if code == INVALID_ARGUMENT then Some("INVALID_ARGUMENT")
    else if code == EXISTS_INITIATOR then Some("EXISTS_INITIATOR")
    else if code == NOT_FOUND_VOLUME then Some("NOT_FOUND_VOLUME")
    else if code == NOT_FOUND_VOLUME_EXPORT then Some("NOT_FOUND_VOLUME_EXPORT")
    else if code == NOT_FOUND_VOLUME_GROUP then Some("NOT_FOUND_VOLUME_GROUP")
    else if code == NOT_FOUND_ACCESS_GROUP then Some("NOT_FOUND_ACCESS_GROUP")
    else if code == NO_FREE_HOST_LUN_ID then Some("NO_FREE_HOST_LUN_ID")
    else if code == EXISTS_CLONE_NAME then Some("EXISTS_CLONE_NAME")
    else if code == EXISTS_FS_NAME then Some("EXISTS_FS_NAME")
    else if code == NOT_FOUND_FS then Some("NOT_FOUND_FS")
    else if code == INVALID_POOL then Some("INVALID_POOL")
    else if code == NOT_FOUND_SS then Some("NOT_FOUND_SS")
    else if code == NOT_FOUND_NFS_EXPORT then Some("NOT_FOUND_NFS_EXPORT")
    else if code == NFS_NO_SUPPORT then Some("NFS_NO_SUPPORT")
    else None
  }

  /** Every name but VOLUME_MASKED is found again from its code. */
  lemma NameOfInvertsTaxonomy(n: string)
    requires n in Taxonomy && n != "VOLUME_MASKED"
    ensures NameOf(Taxonomy[n]) == Some(n)
  {
  }

  /** A TargetdException: the constructor keeps `code` as given and passes
      `message` to Exception, so `str(e)` is the message. */
  datatype TargetdException = TargetdException(code: int, message: string) {
    /** What `str(e)` (and so `print(e)`) shows. */
    function Text(): string { message }
  }

  /** Every other exception the client can let escape. */
  datatype Fault =
    | ConnectionError          // the POST never got an answer
    | HttpError(status: int)   // raise_for_status on a 4xx or 5xx answer
    | JsonDecodeError          // r.json() on a body that is not JSON
    | KeyError(key: string)    // a lookup of a missing dict key
    | TypeError                // indexing or converting a value of the wrong type
    | ValueError               // int() of a string that is no integer

  /** How a call ends: its value, a TargetdException, or another exception. */
  datatype Outcome<+T> = Ok(value: T) | Raised(error: TargetdException) | Fault(fault: Fault) {

    /** The same failure, for a caller whose own value has another type. */
    function Propagate<U>(): (o: Outcome<U>)
      requires !Ok?
      ensures o.Raised? == Raised? && o.Fault? == Fault?
      ensures Raised? ==> o.error == error
      ensures Fault? ==> o.fault == fault
    {
      if Raised? then Raised(error) else Fault(fault)
    }
  }

  /** Constructing the exception keeps both arguments unchanged, and the
      message is the text a handler prints. */
  lemma ExceptionKeepsArguments(code: int, message: string)
    ensures TargetdException(code, message).code == code
    ensures TargetdException(code, message).Text() == message
  {
  }

  /** -303 means both "unexpected exit code" and "volume masked", so the two
      cannot be told apart by code; no other two names share a code. */
  lemma {:induction false} OnlyMinus303IsAmbiguous(a: string, b: string)
    requires a in Taxonomy && b in Taxonomy && a != b
    ensures VOLUME_MASKED == UNEXPECTED_EXIT_CODE == -303
    ensures Taxonomy[a] == Taxonomy[b] <==> {a, b} == {"UNEXPECTED_EXIT_CODE", "VOLUME_MASKED"}
  {
    if Taxonomy[a] == Taxonomy[b] {
      if a != "VOLUME_MASKED" && b != "VOLUME_MASKED" {
        NameOfInvertsTaxonomy(a);
        NameOfInvertsTaxonomy(b);
        assert false;
      } else if a == "VOLUME_MASKED" {
        NameOfInvertsTaxonomy(b);
      } else {
        NameOfInvertsTaxonomy(a);
      }
    }
    if {a, b} == {"UNEXPECTED_EXIT_CODE", "VOLUME_MASKED"} {
      assert a in {"UNEXPECTED_EXIT_CODE", "VOLUME_MASKED"} && b in {"UNEXPECTED_EXIT_CODE", "VOLUME_MASKED"};
    }
  }

  /** The codes the client itself depends on. */
  lemma ClientCodes()
    ensures Taxonomy["INVALID"] == -1
    ensures Taxonomy["NOT_FOUND_VOLUME"] == -103
  {
  }
}
