/**
 * Chat sessions (src/db/sessions.rs): a session is a name and a list of messages, stored as JSON
 * under its name in a `DbStorage.Storage`. JSON encoding and decoding are the parameters `encode`
 * and `decode`; a decoding failure arrives already converted to an I/O error, as `?` converts it.
 */
module DbSessions {
  import opened Wrappers
  import opened Files
  import opened DbStorage

  /** One chat message. */
  datatype Message = Message(role: string, content: string)

  /** `load_as_json`: load the name's bytes, then decode them. */
  function LoadAsJson(st: Storage, fs: FileSystem, name: string, decode: Bytes -> Result<seq<Message>, IoError>)
    : Result<seq<Message>, IoError>
  {
    match Load(st, fs, name)
    case Err(e) => Err(e)
    case Ok(bytes) => decode(bytes)
  }

  /**
   * The messages `get_or_create_session` puts in the session it returns, or its error: an existing
   * session is loaded and decoded, but the decoded value is dropped, so success always means an
   * empty history.
   */
  function OpenedMessages(st: Storage, fs: FileSystem, name: string, decode: Bytes -> Result<seq<Message>, IoError>)
    : Result<seq<Message>, IoError>
  {
    if Exists(st, fs, name) then
      match LoadAsJson(st, fs, name, decode)
      case Err(e) => Err(e)
      case Ok(_) => Ok([])
    else Ok([])
  }

  /** `save_session`: the messages alone, encoded and saved under the session's name. */
  function StoreMessages(st: Storage, fs: FileSystem, name: string, messages: seq<Message>,
                         encode: seq<Message> -> Bytes): Result<FileSystem, IoError>
  {
    Save(st, fs, name, encode(messages))
  }

  // ---------------------------------------------------------------- properties

  /**
   * Opening a session fails exactly when a file of that name exists and loading or decoding it
   * fails (with that error); otherwise the history is empty, whether the file existed or not.
   */
  lemma OpenedHistoryIsEmpty(st: Storage, fs: FileSystem, name: string, decode: Bytes -> Result<seq<Message>, IoError>)
    ensures var r := OpenedMessages(st, fs, name, decode);
      && (r.Err? <==> Exists(st, fs, name) && LoadAsJson(st, fs, name, decode).Err?)
      && (r.Err? ==> r == Err(LoadAsJson(st, fs, name, decode).error))
      && (r.Ok? ==> r.value == [])
  {
  }

  /**
   * Saving stores the encoded messages under the session's name: loading that name and decoding
   * with a matching decoder gives the messages back, and no other name changes.
   */
  lemma StoreThenLoad(st: Storage, fs: FileSystem, name: string, messages: seq<Message>,
                      encode: seq<Message> -> Bytes, decode: Bytes -> Result<seq<Message>, IoError>)
    requires decode(encode(messages)) == Ok(messages)
    requires StoreMessages(st, fs, name, messages, encode).Ok?
    ensures var fs' := StoreMessages(st, fs, name, messages, encode).value;
      && LoadAsJson(st, fs', name, decode) == Ok(messages)
      && forall other :: other != name ==> Load(st, fs', other) == Load(st, fs, other)
  {
    SaveThenLoad(st, fs, name, encode(messages));
  }

  /**
   * A saved history is not brought back: after saving non-empty messages, opening the same name
   * succeeds with an empty history although the file decodes to the messages.
   */
  lemma SavedHistoryNotRestored(st: Storage, fs: FileSystem, name: string, messages: seq<Message>,
                                encode: seq<Message> -> Bytes, decode: Bytes -> Result<seq<Message>, IoError>)
    requires decode(encode(messages)) == Ok(messages) && messages != []
    requires StoreMessages(st, fs, name, messages, encode).Ok?
    ensures var fs' := StoreMessages(st, fs, name, messages, encode).value;
      && LoadAsJson(st, fs', name, decode) == Ok(messages)
      && OpenedMessages(st, fs', name, decode) == Ok([])
      && OpenedMessages(st, fs', name, decode) != Ok(messages)
  {
    SaveThenLoad(st, fs, name, encode(messages));
  }

  // ---------------------------------------------------------------- objects

  /** `Session`: its messages grow in place. */
  class Session {
    var name: string
    var messages: seq<Message>

    /** The struct literal of `get_or_create_session`: the name and no messages. */
    constructor (name: string)
      ensures this.name == name && messages == []
    {
      this.name := name;
      messages := [];
    }

    /** `is_empty`. */
    predicate IsEmpty()
      reads this
    {
      |messages| == 0
    }

    /** `append`: the messages are extended by the slice, in order; the name stays. */
    method Append(ms: seq<Message>)
      modifies this
      ensures messages == old(messages) + ms && name == old(name)
      ensures IsEmpty() <==> old(IsEmpty()) && ms == []
    {
      messages := messages + ms;
    }
  }

  /** `Sessions`: the storage sessions are kept in. */
  class Sessions {
    const storage: Storage

    constructor (storage: Storage)
      ensures this.storage == storage
    {
      this.storage := storage;
    }

    /** `get_or_create_session`: a new session object, or the error of loading an existing one. */
    method GetOrCreateSession(fs: FileSystem, name: string, decode: Bytes -> Result<seq<Message>, IoError>)
      returns (r: Result<Session, IoError>)
      ensures r.Err? <==> OpenedMessages(storage, fs, name, decode).Err?
      ensures r.Err? ==> r.error == OpenedMessages(storage, fs, name, decode).error
      ensures r.Ok? ==>
        && fresh(r.value)
        && r.value.name == name
        && r.value.messages == OpenedMessages(storage, fs, name, decode).value
    {
      var session := new Session(name);
      if Exists(storage, fs, name) {
        var loaded := LoadAsJson(storage, fs, name, decode);
        if loaded.Err? {
          return Err(loaded.error);
        }
      }
      r := Ok(session);
    }

    /** `save_session`: only the messages are written, under the session's name. */
    method SaveSession(fs: FileSystem, session: Session, encode: seq<Message> -> Bytes)
      returns (r: Result<FileSystem, IoError>)
      ensures r == StoreMessages(storage, fs, session.name, session.messages, encode)
    {
      r := Save(storage, fs, session.name, encode(session.messages));
    }
  }
}
