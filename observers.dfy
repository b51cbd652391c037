/** Observer notification. A frame keeps a set of observers; frameModified()
    calls onFrameModified() on each of them. Calls into observers are foreign
    code, so the model records each call as a Notice in a log instead. */
module Observers {

  /** One onFrameModified() call: observer was told that frame changed. */
  datatype Notice = Notice(frame: nat, observer: nat)

  /** The calls frameModified() makes on frame: one per registered observer. */
  function NoticesOf(frame: nat, observers: set<nat>): multiset<Notice> {
    multiset(set o | o in observers :: Notice(frame, o))
  }

  lemma NoticesOfEmpty(frame: nat)
    ensures NoticesOf(frame, {}) == multiset{}
  {
    assert (set o | o in {} :: Notice(frame, o)) == {};
  }

  lemma NoticesOfAdd(frame: nat, done: set<nat>, o: nat)
    requires o !in done
    ensures NoticesOf(frame, done + {o}) == NoticesOf(frame, done) + multiset{Notice(frame, o)}
  {
    var s := set x | x in done :: Notice(frame, x);
    assert (set x | x in done + {o} :: Notice(frame, x)) == s + {Notice(frame, o)};
    assert Notice(frame, o) !in s;
  }

  /** frameModified(): every registered observer is called once; the order of
      the calls (the order of the std::set) is not recorded. */
  method Notify(log: multiset<Notice>, frame: nat, observers: set<nat>) returns (r: multiset<Notice>)
    ensures r == log + NoticesOf(frame, observers)
  {
    r := log;
    var pending := observers;
    NoticesOfEmpty(frame);
    assert observers - pending == {};
    while pending != {}
      invariant pending <= observers
      invariant r == log + NoticesOf(frame, observers - pending)
      decreases |pending|
    {
      var o :| o in pending;
      NoticesOfAdd(frame, observers - pending, o);
      assert (observers - pending) + {o} == observers - (pending - {o});
      r := r + multiset{Notice(frame, o)};
      pending := pending - {o};
    }
    assert observers - pending == observers;
  }

  /** Each registered observer of frame is called exactly once, an observer
      that is not registered (or was removed) is not called, and no other
      frame's observers are called. */
  lemma NotifiedExactlyOnce(frame: nat, observers: set<nat>, n: Notice)
    ensures NoticesOf(frame, observers)[n] == if n.frame == frame && n.observer in observers then 1 else 0
  {
    var s := set o | o in observers :: Notice(frame, o);
    assert n in s <==> n.frame == frame && n.observer in observers;
  }
}
