/** Concrete runs of the model: who a message goes to, and when a row is given up. */
module Scenarios {
  import opened Entities
  import opened Resolution
  import opened Store
  import opened Hooks

  const alice := ObjKey("auth.user", 1)

  /** Two listeners watching `username == "bob"`, one for users and one for posts. */
  function BobListeners(): seq<Listener>
  {
    [ Listener("auth.user", "username", "bob", "http://a.example/hook", alice),
      Listener("blog.post", "username", "bob", "http://b.example/hook", alice) ]
  }

  /** A saved user "bob" reaches both listeners: the final filter does not look at
      the listener's type, only at the property and value. */
  lemma CrossTypeMatch()
    ensures Resolve(BobListeners(), "auth.user", map["username" := "bob"]) == Success({0, 1})
  {
    var ls := BobListeners();
    var obj := map["username" := "bob"];
    assert Watched(ls, "auth.user", "username") by {
      assert ls[0].objType == "auth.user" && ls[0].objProperty == "username";
    }
    assert forall j :: 0 <= j < |ls| && ls[j].objType == "auth.user" ==> j == 0;
    var r := Resolve(ls, "auth.user", obj);
    assert r.Success?;
    assert forall i :: i in r.value <==> i == 0 || i == 1;
    assert r.value == {0, 1};
  }

  /** A subject of a type no listener is registered for ("blog.comment") reaches
      nobody, whatever its attributes... */
  lemma NoListenerOfType()
    ensures Resolve(BobListeners(), "blog.comment", map["username" := "bob"]) == Success({})
  {
  }

  /** ...and a user that has no `username` attribute makes resolution fail. */
  lemma MissingAttribute()
    ensures Resolve(BobListeners(), "auth.user", map["email" := "bob@example.com"]) == Failure(AttributeError("username"))
  {
  }

  /** A row that failed its first attempt for a model whose webhook allows 3 tries is
      retried once by that webhook's pass (still failing) and then closed by the pass
      of a webhook allowing 1 try, since the passes do not look at the row's type. */
  lemma CrossTypeGiveUp(k: QueueId, msg: MessageId, l: ListenerId, net: Network, now: Timestamp)
    requires forall n :: !net(k, n)
    ensures var r := Passes(FirstAttempt(k, msg, l, net, now), k, [3, 1], net, now);
      r.processed && r.attempts == 2 && r.failedAt == Some(now)
  {
  }
}
