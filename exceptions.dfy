/** mermaid_py/exceptions.py: the three exception classes and how each
    builds its message, plus the failures a client call can end with. */
module Exceptions {
  import opened Values

  const DefaultUnauthorized := "Unauthorized Client -- Attempt Token Refresh"
  const InvalidResourcePrefix := "Invalid Resource:"
  const InvalidProjectPrefix := "Invalid Project "

  /** Message of UnauthorizedClientException: the default text, replaced
      by any non-empty `message`. */
  function UnauthorizedMessage(message: Option<string>): (m: string)
    ensures Truthy(message) ==> m == message.value
    ensures !Truthy(message) ==> m == DefaultUnauthorized
    ensures m != ""
  {
    if Truthy(message) then message.value else DefaultUnauthorized
  }

  /** Message of InvalidResourceException: "Invalid Resource:" followed by
      the resource, unless a non-empty `message` replaces it. */
  function InvalidResourceMessage(resource: string, message: Option<string>): (m: string)
    ensures Truthy(message) ==> m == message.value
    ensures !Truthy(message) ==> InvalidResourcePrefix <= m && m[|InvalidResourcePrefix|..] == resource
  {
    if Truthy(message) then message.value else InvalidResourcePrefix + resource
  }

  /** Message of InvalidProjectException. */
  function InvalidProjectMessage(id: Option<string>, name: Option<string>): (m: string)
    ensures InvalidProjectPrefix <= m
    ensures m == InvalidProjectPrefix <==> !Truthy(id) && !Truthy(name)
    ensures Truthy(id) ==> InvalidProjectPrefix + "id:" + id.value <= m
    ensures Truthy(id) && !Truthy(name) ==> m == InvalidProjectPrefix + "id:" + id.value
    ensures Truthy(name) ==> m == InvalidProjectPrefix + "id:" + Show(id) + " name:" + name.value
  {
    if Truthy(id) && Truthy(name) then InvalidProjectPrefix + "id:" + id.value + " name:" + name.value
    else if Truthy(id) then InvalidProjectPrefix + "id:" + id.value
    else if Truthy(name) then InvalidProjectPrefix + "id:" + Show(id) + " name:" + name.value
    else InvalidProjectPrefix
  }

  /** A name-only InvalidProjectException never shows an id: the message
      prints the missing id as "None" (or as nothing for an empty id), and
      the name can be read back from the end of the message. */
  lemma NameOnlyMessage(id: Option<string>, name: string)
    requires !Truthy(id) && name != ""
    ensures var m := InvalidProjectMessage(id, Some(name));
      && (id.None? ==> m == "Invalid Project id:None name:" + name)
      && (id == Some("") ==> m == "Invalid Project id: name:" + name)
      && m[|m| - |name|..] == name
  {
    var prefix := NameOnlyPrefix(id);
    assert InvalidProjectMessage(id, Some(name)) == prefix + name;
    assert (prefix + name)[|prefix|..] == name;
  }

  /** What a name-only message puts before the name. */
  lemma NameOnlyPrefix(id: Option<string>) returns (prefix: string)
    requires !Truthy(id)
    ensures prefix == InvalidProjectPrefix + "id:" + Show(id) + " name:"
    ensures id.None? ==> prefix == "Invalid Project id:None name:"
    ensures id == Some("") ==> prefix == "Invalid Project id: name:"
  {
    prefix := InvalidProjectPrefix + "id:" + Show(id) + " name:";
  }

  class UnauthorizedClientException {
    var message: string

    constructor (message: Option<string>)
      ensures this.message == UnauthorizedMessage(message)
    {
      this.message := DefaultUnauthorized;
      if Truthy(message) {
        this.message := message.value;
      }
    }
  }

  class InvalidResourceException {
    var message: string

    constructor (resource: string, message: Option<string>)
      ensures this.message == InvalidResourceMessage(resource, message)
    {
      this.message := InvalidResourcePrefix + resource;
      if Truthy(message) {
        this.message := message.value;
      }
    }
  }

  class InvalidProjectException {
    var message: string

    constructor (id: Option<string>, name: Option<string>)
      ensures message == InvalidProjectMessage(id, name)
    {
      message := InvalidProjectPrefix;
      if Truthy(id) && Truthy(name) {
        message := message + "id:" + id.value + " name:" + name.value;
      } else if Truthy(id) {
        message := message + "id:" + id.value;
      } else if Truthy(name) {
        message := message + "id:" + Show(id) + " name:" + name.value;
      }
    }
  }

  /** How a client call fails: one case per exception the client raises. */
  datatype Failure =
    | Unauthorized(message: string)     // UnauthorizedClientException
    | InvalidResource(message: string)  // InvalidResourceException
    | InvalidProject(message: string)   // InvalidProjectException
    | StatusError(status: int)          // the plain Exception for any other status
    | MissingResults                    // a projects listing without "results"
}
