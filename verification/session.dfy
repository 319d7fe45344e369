/** `SessionService`: an in-memory table from session ids to whatever the
    caller stored. The store is modelled as a value; each write returns the
    new store. */
module Session {

  /** The Python values a session can hold, as plain data. */
  datatype Value =
    | Null
    | Bool(b: bool)
    | Num(n: real)
    | Str(s: string)
    | List(items: seq<Value>)
    | Dict(entries: map<string, Value>)

  /** The `{}` an unknown session reads as. */
  const EmptyDict: Value := Dict(map[])

  datatype Store = Store(sessions: map<string, Value>)

  /** A fresh service holds no sessions, so every lookup yields `{}`. */
  function NewStore(): (s: Store)
    ensures s.sessions == map[]
    ensures forall id :: GetSessionData(s, id) == EmptyDict
  {
    Store(map[])
  }

  /** `sessions.get(session_id, {})`. */
  function GetSessionData(s: Store, id: string): (data: Value)
    ensures id in s.sessions ==> data == s.sessions[id]
    ensures id !in s.sessions ==> data == EmptyDict
  {
    if id in s.sessions then s.sessions[id] else EmptyDict
  }

  /** `sessions[session_id] = value`: the session now holds `value` and every
      other session keeps its data. */
  function SetSessionData(s: Store, id: string, value: Value): (r: Store)
    ensures GetSessionData(r, id) == value
    ensures forall other :: other != id ==> GetSessionData(r, other) == GetSessionData(s, other)
    ensures r.sessions.Keys == s.sessions.Keys + {id}
  {
    Store(s.sessions[id := value])
  }

  /** One `set_session_data` call. */
  datatype Write = Write(id: string, value: Value)

  /** The store a fresh service reaches after performing `log` in order. */
  function Replay(log: seq<Write>): Store
    decreases |log|
  {
    if |log| == 0 then NewStore()
    else
      var w := log[|log| - 1];
      SetSessionData(Replay(log[..|log| - 1]), w.id, w.value)
  }

  /** The value of the last write to `id` in `log`, or `{}` when there is
      none: what a session should read, stated without any store. */
  function LastWrite(log: seq<Write>, id: string): Value
    decreases |log|
  {
    if |log| == 0 then EmptyDict
    else if log[|log| - 1].id == id then log[|log| - 1].value
    else LastWrite(log[..|log| - 1], id)
  }

  /** After any sequence of writes from a fresh service, reading a session
      gives the last value written to it, and `{}` if it was never written. */
  lemma {:induction false} ReadsLastWrite(log: seq<Write>, id: string)
    ensures GetSessionData(Replay(log), id) == LastWrite(log, id)
    decreases |log|
  {
    if |log| > 0 {
      ReadsLastWrite(log[..|log| - 1], id);
    }
  }

  /** A second write to the same session replaces the first. */
  lemma SetOverwrites(s: Store, id: string, v: Value, w: Value)
    ensures SetSessionData(SetSessionData(s, id, v), id, w) == SetSessionData(s, id, w)
  {
  }

  /** Writes to different sessions commute. */
  lemma SetsCommute(s: Store, a: string, b: string, va: Value, vb: Value)
    requires a != b
    ensures SetSessionData(SetSessionData(s, a, va), b, vb) == SetSessionData(SetSessionData(s, b, vb), a, va)
  {
  }

  /** Writing back what a stored session holds changes nothing; writing back
      the `{}` of an unknown session creates that session. */
  lemma SetWhatIsThere(s: Store, id: string)
    ensures id in s.sessions ==> SetSessionData(s, id, GetSessionData(s, id)) == s
    ensures id !in s.sessions ==> SetSessionData(s, id, GetSessionData(s, id)).sessions.Keys == s.sessions.Keys + {id}
  {
  }
}
