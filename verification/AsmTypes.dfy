/** The vocabulary of the audio session manager: events, states, policies,
    replies, and the values that its list, its log and its answers hold. */
module AsmTypes {

  datatype Option<+T> = None | Some(value: T)

  datatype Event =
    | ShareMmplayer | ShareMmcamcorder | ShareMmsound | ShareOpenal | ShareAvsystem
    | ExclusiveMmplayer | ExclusiveMmcamcorder | ExclusiveMmsound | ExclusiveOpenal | ExclusiveAvsystem
    | Notify | Call | ShareFmradio | ExclusiveFmradio | EarjackUnplug
    | Alarm | VideoCall | Monitor | RichCall

  datatype Status = NoState | Playing | Waiting | Stopped | Paused | PausedByApp | AlterPlaying | Ignored

  /** What happens to the sound that already plays (1) and to the newcomer (2). */
  datatype Policy =
    | NoPolicy | Play1Stop2 | Play1Alter2 | Play1Wait2 | Alter1Play2
    | Stop1Play2 | Pause1Play2 | Virtual1Play2 | Mix

  datatype Command = CmdNone | CmdWait | CmdPlay | CmdStop | CmdPause | CmdResume

  datatype Source =
    | CallStart | CallEnd | EarjackUnplugged | ResourceConflict
    | AlarmStart | AlarmEnd | OtherPlayerApp | OtherApp

  /** What a client writes back; Unexpected stands for every other value, and
      for the failure code of a callback that could not be delivered. */
  datatype Reply = ResNone | ResIgnore | ResStop | ResPause | ResPlaying | Unexpected

  /** A callback reaches a sound itself, or the monitor of the sound's process. */
  datatype Role = Worker | Watcher

  datatype Session = Media | VoiceCall | Voip | FmRadio | Notification

  /** A resource mask, as the set of the positions of its one bits. */
  type Bits = set<nat>

  /** One element of the list of sound instances. */
  datatype Sound = Sound(
    pid: int, handle: int, event: Event, state: Status, resume: bool,
    resource: Bits, monitorActive: bool, monitorDirty: bool)

  /** What the server does to the outside, in order. */
  datatype Effect =
    | Callback(pid: int, handle: int, command: Command, source: Source,
               role: Role, cause: Event, reply: Reply)
    | Admitted(pid: int, handle: int)
    | SessionSet(session: Session, start: bool)

  /** The policy matrix, the number of handles and the GCF switch; fixed when the
      server starts. */
  datatype Config = Config(policy: (Event, Event) -> Policy, maxHandles: nat, gcf: bool)

  /** The clients: the reply to the n-th effect if it is a callback, and which
      processes exist while one message is handled. */
  datatype World = World(reply: nat -> Reply, alive: int -> bool)

  datatype Kind = Register | SetState

  /** A request to take up or change the state of a sound. */
  datatype Request = Request(
    kind: Kind, pid: int, handle: int, event: Event, state: Status, resource: Bits)

  datatype Decision = Decision(allocHandle: int, cmdHandle: int, command: Command, state: Status)

  /** The list, the two cached status masks (each event has a bit of its own, so a
      mask is a set of events), the current session, and all effects so far. */
  datatype State = State(
    list: seq<Sound>, playing: set<Event>, paused: set<Event>, session: Session, log: seq<Effect>)

  datatype Message =
    | MsgRegister(pid: int, event: Event, state: Status, resource: Bits)
    | MsgUnregister(handle: int, event: Event)
    | MsgSetState(pid: int, handle: int, event: Event, state: Status, resource: Bits)
    | MsgGetState(handle: int)
    | MsgGetMyState(pid: int)
    | MsgEmergentExit(pid: int)
    | MsgDump

  datatype Answer =
    | Silent
    | NoHandle
    | Decided(decision: Option<Decision>)
    | Acknowledged(cmdHandle: int, state: Status)
    | StateIs(state: Status)
}
