/** The one piece of the graph runtime the drivers depend on: the graph halts
    before a node listed in `interrupt_before` instead of running it. */
module Engine {
  import opened Common

  /** What the runtime does with the target a transition produced. */
  datatype Advance = Finish | Run(node: string) | Pause(node: string)

  /** Halts before a gated node, runs any other node, finishes on `END`. */
  function Gate(t: Target, gated: set<string>): (a: Advance)
    ensures a == Finish <==> t == End
    ensures a.Pause? <==> t.Node? && t.name in gated
    ensures a.Run? <==> t.Node? && t.name !in gated
    ensures !a.Finish? ==> a.node == t.name
  {
    match t
    case End => Finish
    case Node(n) => if n in gated then Pause(n) else Run(n)
  }
}
