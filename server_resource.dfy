/**
 * The `ServerResource` record of the detector protocol: three string fields
 * (identifier, type, version), each replaced in place by its setter and read
 * by its getter.
 */
module ServerResources {
  import opened Wrappers

  /** A discovered installation as a value: what a detector reports. */
  datatype Resource = Resource(identifier: string, resourceType: string, version: string)

  /** The contents of a `ServerResource` record; `None` stands for a NULL field. */
  datatype Fields = Fields(identifier: Option<string>, resourceType: Option<string>, version: Option<string>)

  /** The fields a record holds once every setter has stored the value's part. */
  function FieldsOf(r: Resource): Fields
  {
    Fields(Some(r.identifier), Some(r.resourceType), Some(r.version))
  }

  class ServerResource {
    var identifier: Option<string>
    var resourceType: Option<string>
    var version: Option<string>

    function View(): Fields
      reads this
    {
      Fields(identifier, resourceType, version)
    }

    /** `server_resource_create`: a record whose three fields are NULL. */
    constructor ()
      ensures View() == Fields(None, None, None)
    {
      identifier, resourceType, version := None, None, None;
    }

    /** `server_resource_get_identifier`. */
    function GetIdentifier(): Option<string>
      reads this
    {
      identifier
    }

    /** `server_resource_get_type`. */
    function GetType(): Option<string>
      reads this
    {
      resourceType
    }

    /** `server_resource_get_version`. */
    function GetVersion(): Option<string>
      reads this
    {
      version
    }

    /** `server_resource_set_identifier`: free the old value, store a copy of the new one. */
    method SetIdentifier(value: string)
      modifies this
      ensures GetIdentifier() == Some(value)
      ensures GetType() == old(GetType()) && GetVersion() == old(GetVersion())
    {
      if identifier.Some? {
        identifier := None;
      }
      identifier := Some(value);
    }

    /** `server_resource_set_type`. */
    method SetType(value: string)
      modifies this
      ensures GetType() == Some(value)
      ensures GetIdentifier() == old(GetIdentifier()) && GetVersion() == old(GetVersion())
    {
      if resourceType.Some? {
        resourceType := None;
      }
      resourceType := Some(value);
    }

    /** `server_resource_set_version`. */
    method SetVersion(value: string)
      modifies this
      ensures GetVersion() == Some(value)
      ensures GetIdentifier() == old(GetIdentifier()) && GetType() == old(GetType())
    {
      if version.Some? {
        version := None;
      }
      version := Some(value);
    }
  }

  /** Setting the identifier twice leaves the same record as setting it once. */
  method SetIdentifierIdempotent(server: ServerResource, value: string)
    modifies server
    ensures server.View() == old(server.View()).(identifier := Some(value))
  {
    server.SetIdentifier(value);
    ghost var once := server.View();
    server.SetIdentifier(value);
    assert server.View() == once;
  }

  /** Setting the type twice leaves the same record as setting it once. */
  method SetTypeIdempotent(server: ServerResource, value: string)
    modifies server
    ensures server.View() == old(server.View()).(resourceType := Some(value))
  {
    server.SetType(value);
    ghost var once := server.View();
    server.SetType(value);
    assert server.View() == once;
  }

  /** Setting the version twice leaves the same record as setting it once. */
  method SetVersionIdempotent(server: ServerResource, value: string)
    modifies server
    ensures server.View() == old(server.View()).(version := Some(value))
  {
    server.SetVersion(value);
    ghost var once := server.View();
    server.SetVersion(value);
    assert server.View() == once;
  }
}
