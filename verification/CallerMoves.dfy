/** The moves of one waiting caller and of the notifiers of the waiters it registered. */
module CallerMoves {
  /** `Main(ready)`: the caller moves; `ready` is what AddWaiter finds.  `Claim(i)`: some
      thread takes waiter `i` off its waitable.  `Callback(i)`: its callback posts. */
  datatype Move = Main(ready: bool) | Claim(i: nat) | Callback(i: nat)

  /** Waitables whose waiters notifiers took, and those whose callbacks ran. */
  function Claims(moves: seq<Move>): set<nat> { set m | m in moves && m.Claim? :: m.i }
  function Callbacks(moves: seq<Move>): set<nat> { set m | m in moves && m.Callback? :: m.i }

  function OwnSteps(moves: seq<Move>): nat {
    if moves == [] then 0 else OwnSteps(moves[1..]) + if moves[0].Main? then 1 else 0
  }

  lemma MoveSets(m: Move)
    ensures Claims([m]) == (if m.Claim? then {m.i} else {}) && Callbacks([m]) == (if m.Callback? then {m.i} else {})
  {
    assert m in [m];
  }

  lemma NothingMoved()
    ensures Claims([]) == {} && Callbacks([]) == {}
  {
  }

  lemma FirstMoved(moves: seq<Move>)
    requires moves != []
    ensures Claims(moves) == Claims([moves[0]]) + Claims(moves[1..])
    ensures Callbacks(moves) == Callbacks([moves[0]]) + Callbacks(moves[1..])
  {
    assert moves == [moves[0]] + moves[1..];
    assert forall m :: m in moves <==> m in [moves[0]] || m in moves[1..];
  }
}
