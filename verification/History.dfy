/** What may happen to a cluster over its life, in any order and any number of times. */
module History {
  import opened Spec
  import opened Cluster

  /** A call of some app's run under way, the garbage collection of everything that a deleted app
      controlled, or a change that anybody else makes. */
  datatype Event = Call(app: App, run: Run, pick: string) | Collect(uid: string) | Outside(objs: Objs)

  ghost function Collected(s: Objs, uid: string): Objs {
    map k | k in s && !(s[k].owner.Some? && s[k].owner.value.uid == uid) :: s[k]
  }

  ghost function Then(s: Objs, e: Event): Objs {
    match e
    case Call(app, run, pick) => Step(app, run, pick).objs
    case Collect(uid) => Collected(s, uid)
    case Outside(objs) => objs
  }

  ghost function Finally(s: Objs, events: seq<Event>): Objs
    decreases |events|
  {
    if events == [] then s else Finally(Then(s, events[0]), events[1..])
  }
}
