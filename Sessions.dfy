/**
 * The session store: one transcript of role-tagged messages per pull request, keyed by
 * (pull-request number, repository full name). Transcripts only ever grow at the end.
 */
module Sessions {
  import opened Wrappers

  datatype Role = System | User | Assistant

  datatype Message = Message(role: Role, content: string)

  /** (pull-request number, repository full name), in the order the storage call takes them. */
  type Key = (int, string)

  type Store = map<Key, seq<Message>>

  /** The transcript of `key`; a session not yet created reads as empty. */
  function Transcript(sessions: Store, key: Key): seq<Message>
  {
    if key in sessions then sessions[key] else []
  }

  /**
   * The store after creating (if need be) the session `key` names and appending
   * `appended` to it; `None` leaves the store alone.
   */
  function Apply(sessions: Store, key: Option<Key>, appended: seq<Message>): Store
  {
    match key
    case None => sessions
    case Some(k) => sessions[k := Transcript(sessions, k) + appended]
  }

  /** `after` keeps every session of `before`, each transcript as a prefix of its new one. */
  ghost predicate Extends(before: Store, after: Store)
  {
    forall k :: k in before ==> k in after && before[k] <= after[k]
  }

  /** Each transcript gains exactly what was appended to its own key; no other session changes. */
  lemma ApplyTranscript(sessions: Store, key: Option<Key>, appended: seq<Message>, k: Key)
    ensures Transcript(Apply(sessions, key, appended), k)
         == Transcript(sessions, k) + (if key == Some(k) then appended else [])
  {
  }

  /** Nothing is ever removed or rewritten: applying an update only extends the store. */
  lemma ApplyExtends(sessions: Store, key: Option<Key>, appended: seq<Message>)
    ensures Extends(sessions, Apply(sessions, key, appended))
  {
  }

  /** The store behind `get_or_create_session` and `Session.add_message`. */
  class SessionStore {
    var sessions: Store

    constructor ()
      ensures sessions == map[]
    {
      sessions := map[];
    }

    /** Returns the handle of the session for (number, fullName), creating an empty one if absent. */
    method GetOrCreate(number: int, fullName: string) returns (key: Key)
      modifies this
      ensures key == (number, fullName) && key in sessions
      ensures old(key in sessions) ==> sessions == old(sessions)
      ensures old(key !in sessions) ==> sessions == old(sessions)[key := []]
    {
      key := (number, fullName);
      if key !in sessions {
        sessions := sessions[key := []];
      }
    }

    /** Appends one message at the end of the session's transcript. */
    method AddMessage(key: Key, role: Role, content: string)
      requires key in sessions
      modifies this
      ensures sessions == old(sessions)[key := old(sessions)[key] + [Message(role, content)]]
    {
      sessions := sessions[key := sessions[key] + [Message(role, content)]];
    }
  }
}
