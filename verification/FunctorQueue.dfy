/** The functor queue of an event loop (src/net/EventLoop.cc:141-193). */
module FunctorQueue {

  /** pendingFunctors_ with the batch doPendingFunctors took: `done` and `todo` are the
      run and unrun parts of its local vector, which lives until the batch ends. */
  datatype Queue<F> = Queue(done: seq<F>, todo: seq<F>, pending: seq<F>) {
    function Unrun(): seq<F> { todo + pending }

    function Push(f: F): (q: Queue<F>)
      ensures q.Unrun() == Unrun() + [f]
    {
      assert todo + (pending + [f]) == (todo + pending) + [f];
      Queue(done, todo, pending + [f])
    }

    function Swap(): (q: Queue<F>)
      requires todo == []
      ensures q.Unrun() == Unrun()
    {
      assert pending + [] == todo + pending;
      Queue([], pending, [])
    }

    function Advance(): (q: Queue<F>)
      requires todo != []
      ensures q.Unrun() == Unrun()[1..]
    {
      assert todo[1..] + pending == (todo + pending)[1..];
      Queue(done + [todo[0]], todo[1..], pending)
    }

    function Clear(): (q: Queue<F>)
      ensures q.Unrun() == Unrun()
    {
      Queue([], todo, pending)
    }
  }
}
