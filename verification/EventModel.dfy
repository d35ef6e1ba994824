/**
 Event clients of msm/msm_drv.c on values: which files listen to which event of which object, and when the
 event is switched on and off in the KMS.
 */
module EventModel {

  datatype Pair = Pair(event: nat, object: nat)

  datatype Client = Client(file: nat, pair: Pair)

  // client_event_list, and the pairs enabled in the KMS
  datatype Events = Events(clients: seq<Client>, enabled: set<Pair>)

  datatype Code = Ok | Unsupported | Already | NotFound | Failed

  // msm_event_client_count
  function Count(clients: seq<Client>, p: Pair): nat {
    if clients == [] then 0 else (if clients[0].pair == p then 1 else 0) + Count(clients[1..], p)
  }

  // msm_ioctl_register_event; `enables` is the KMS's answer.
  function Register(e: Events, file: nat, p: Pair, supported: bool, enables: bool): (Code, Events) {
    if !supported then (Unsupported, e)
    else if Client(file, p) in e.clients then (Already, e)
    else if Count(e.clients, p) == 0 && !enables then (Failed, e)
    else (Ok, Events(e.clients + [Client(file, p)], if Count(e.clients, p) == 0 then e.enabled + {p} else e.enabled))
  }

  function RemoveFirst(clients: seq<Client>, c: Client): seq<Client> {
    if clients == [] then [] else if clients[0] == c then clients[1..] else [clients[0]] + RemoveFirst(clients[1..], c)
  }

  // msm_ioctl_deregister_event; `disables` is the KMS's answer.
  function Deregister(e: Events, file: nat, p: Pair, supported: bool, disables: bool): (Code, Events) {
    if !supported then (Unsupported, e)
    else if Client(file, p) !in e.clients then (NotFound, e)
    else
      var left := RemoveFirst(e.clients, Client(file, p));
      if Count(left, p) > 0 then (Ok, e.(clients := left))
      else (if disables then Ok else Failed, Events(left, if disables then e.enabled - {p} else e.enabled))
  }

  // The clients of a file, and all others
  function Mine(clients: seq<Client>, file: nat, mine: bool): seq<Client> {
    if clients == [] then []
    else
      var last := clients[|clients| - 1];
      Mine(clients[..|clients| - 1], file, mine) + if (last.file == file) == mine then [last] else []
  }

  // The disables of msm_release, in order, for clients moved to the temporary list with `left` still listening
  function Disables(moved: seq<Client>, left: seq<Client>): seq<Pair> {
    if moved == [] then []
    else
      var p := moved[0].pair;
      (if Count(left, p) + Count(moved[1..], p) == 0 then [p] else []) + Disables(moved[1..], left)
  }

  // The pairs of the calls that succeed
  function Off(calls: seq<Pair>, fail: set<Pair>): set<Pair> {
    set p | p in calls && p !in fail
  }

  // The event part of msm_release; `fail` are the pairs the KMS fails to disable.
  function Release(e: Events, file: nat, fail: set<Pair>): Events {
    var left := Mine(e.clients, file, false);
    var calls := Disables(Mine(e.clients, file, true), left);
    Events(left, e.enabled - Off(calls, fail))
  }
}
