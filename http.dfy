/** The browser side of the HTTP traffic: the requests the pages issue and a
    network that delivers them in order until a fault. A `fetch` rejects only
    when the request does not get through; an error status is still a
    delivered request. The fault oracle is the one of the database model:
    `Some(k)` more requests get through, `None` means all do. */
module Http {
  import opened Wrappers
  import opened Tree
  import opened Batch

  /** A request as the server sees it: method, path parameter and body. */
  datatype Request =
    | PutTask(taskId: int, completed: Flag)          // PUT /api/tasks/:id
    | PostNote(taskId: int, category: Category, content: string) // POST /api/tasks/:id/notes
    | PutNote(noteId: Option<int>, content: string)  // PUT /api/notes/:id
    | DeleteNote(noteId: Option<int>)                // DELETE /api/notes/:id
    | GetRoadmap                                     // GET /api/roadmap

  class Network {
    /** Every request delivered so far, oldest first. */
    var sent: seq<Request>
    /** How many further requests get through. */
    var okLeft: Option<nat>

    constructor(okLeft: Option<nat>)
      ensures this.sent == [] && this.okLeft == okLeft
    {
      this.sent := [];
      this.okLeft := okLeft;
    }

    /** `await fetch(...)`: delivered and resolved, or rejected and not delivered. */
    method Fetch(r: Request) returns (ok: bool)
      modifies this
      ensures ok == Fits(old(okLeft), 1)
      ensures ok ==> sent == old(sent) + [r] && okLeft == Spend(old(okLeft), 1)
      ensures !ok ==> sent == old(sent) && okLeft == old(okLeft)
    {
      ok := Fits(okLeft, 1);
      if ok {
        sent := sent + [r];
        okLeft := Spend(okLeft, 1);
      }
    }
  }

  /** One more request gets through after the delivered prefix `done`. */
  lemma SendOne<I>(k0: Option<nat>, done: seq<I>, r: I)
    requires Fits(k0, |done|) && Fits(Spend(k0, |done|), 1)
    ensures Fits(k0, |done + [r]|) && Spend(k0, |done + [r]|) == Spend(Spend(k0, |done|), 1)
  {
  }

  /** The request after the delivered prefix `done` of `full` fails: `done`
      is all that is delivered of `full`. */
  lemma SendStops<I>(k0: Option<nat>, done: seq<I>, full: seq<I>)
    requires Fits(k0, |done|) && !Fits(Spend(k0, |done|), 1) && done < full
    ensures Written(k0, full) == done && !Fits(k0, |full|)
    ensures Spend(k0, |done|) == Spend(k0, |Written(k0, full)|)
  {
  }

  /** Issuing `one` after the delivered prefix `done` of `full`: when all of
      `one` gets through, the delivered part grows by `one`; when it does not,
      what is delivered of `one` is what is delivered of the whole of `full`. */
  lemma SendStep<I>(k0: Option<nat>, done: seq<I>, one: seq<I>, full: seq<I>)
    requires Fits(k0, |done|) && done + one <= full
    ensures Fits(Spend(k0, |done|), |one|) ==>
      Fits(k0, |done + one|) && Spend(k0, |done + one|) == Spend(Spend(k0, |done|), |one|)
    ensures !Fits(Spend(k0, |done|), |one|) ==>
      !Fits(k0, |full|) &&
      done + Written(Spend(k0, |done|), one) == Written(k0, full) &&
      Spend(Spend(k0, |done|), |Written(Spend(k0, |done|), one)|) == Spend(k0, |Written(k0, full)|)
  {
    if !Fits(Spend(k0, |done|), |one|) {
      var w := Written(k0, full);
      assert |w| == |done| + |Written(Spend(k0, |done|), one)|;
      assert w == full[..|w|];
      assert done + Written(Spend(k0, |done|), one) == (done + one)[..|w|];
    }
  }
}
