/** Events, topic seeds and the reducer states that travel with live events. */
module Types {

  datatype Option<+T> = None | Some(value: T)

  // ---- machine integers ----

  const TWO63: int := 0x8000_0000_0000_0000
  const TWO64: int := 0x1_0000_0000_0000_0000

  type uint64 = n: int | 0 <= n < TWO64
  type int64 = n: int | -TWO63 <= n < TWO63

  /** Two's-complement truncation of a mathematical integer to 64 bits. */
  function Wrap64(n: int): (r: int64)
    ensures (r - n) % TWO64 == 0
  {
    (n + TWO63) % TWO64 - TWO63
  }

  // ---- payloads ----

  /** JSON numbers are taken as integers that a float64 holds exactly. */
  type Number = n: int | -0x20_0000_0000_0000 <= n <= 0x20_0000_0000_0000

  datatype Json = Text(s: string) | Num(n: Number) | Other

  /** A decoded payload object. A payload that is absent or does not decode is the empty map. */
  type Payload = map<string, Json>

  /** The loose string lookup every reducer uses: "" unless the field is a string. */
  function GetStr(p: Payload, key: string): string {
    if key in p && p[key].Text? then p[key].s else ""
  }

  /** It finds a non-empty text exactly where the payload has that text under the key. */
  lemma GetStrIff(p: Payload, key: string, v: string)
    requires v != ""
    ensures GetStr(p, key) == v <==> key in p && p[key] == Text(v)
  {
  }

  // ---- reducer states ----

  /** Instants are integers counting nanoseconds; 0 is the zero time. */
  type Time = int

  datatype Checks = Checks(passed: nat, failed: nat, pending: nat)

  datatype PRState = PRState(
    title: string, author: string, base: string, head: string, state: string,
    reviewers: seq<string>, approvals: nat, changesRequested: nat, labels: seq<string>,
    checks: Checks, comments: nat, mergedAt: Time, updatedAt: Time)

  datatype BuildStep = BuildStep(name: string, status: string, durationMs: int)

  datatype BuildState = BuildState(
    status: string, currentStep: string, steps: seq<BuildStep>,
    startedAt: Time, finishedAt: Time, durationMs: int, stepStarts: map<string, Time>)

  datatype ChatMessage = ChatMessage(id: string, user: string, text: string, postedAt: Time, edited: bool)

  datatype ChatState = ChatState(room: string, participants: seq<string>, recent: seq<ChatMessage>)

  datatype JobLog = JobLog(at: Time, line: string)

  datatype JobState = JobState(
    name: string, percent: int, etaSeconds: int, status: string, logs: seq<JobLog>,
    startedAt: Time, finishedAt: Time)

  datatype IntState = IntState(value: int64, present: bool, updatedAt: Time)

  /** The marshalled state of a topic. Foreign stands for bytes no reducer below wrote. */
  datatype State =
    | PR(pr: PRState)
    | Build(build: BuildState)
    | Chat(chat: ChatState)
    | Job(job: JobState)
    | IntField(num: IntState)
    | Foreign(bytes: string)

  // ---- events ----

  /** seqno is the per-topic sequence number the store assigns; state is set on live fan-out only. */
  datatype Event = Event(
    id: string, topic: string, kind: string, seqno: nat, occurredAt: Time,
    actor: string, payload: Payload, state: Option<State>)

  /** How a new subscription is seeded before live events stream. */
  datatype From = FromLatest | FromLastN(n: uint64) | FromSeq(s: uint64)
}
