/**
 Comment threads (src/comment/comment.service.ts): the checks before the transaction, the advisory
 lock on (author, parent), and the check-then-create inside it, as separate steps of concurrent
 requests. Locks are keyed by the pair itself; bodies, images and notifications are left out.
 */
module Comments {
  import opened Wrappers

  type Id = string

  datatype Post = Post(deleted: bool)

  /** `born` is the creation order, as `createdAt` records it. */
  datatype Comment = Comment(post: Id, author: Id, parent: Option<Id>, deleted: bool, born: nat)

  datatype Table = Table(posts: map<Id, Post>, comments: map<Id, Comment>, births: nat)
  {
    predicate LivePost(post: Id) {
      post in posts && !posts[post].deleted
    }

    /** The parent of a reply exists, is not deleted, and belongs to the post replied under. */
    predicate LiveParent(parent: Id, post: Id) {
      parent in comments && !comments[parent].deleted && comments[parent].post == post
    }

    predicate IsReply(c: Id, author: Id, parent: Id)
      requires c in comments
    {
      comments[c].author == author && comments[c].parent == Some(parent) && !comments[c].deleted
    }

    ghost predicate HasReply(author: Id, parent: Id) {
      exists c :: c in comments && IsReply(c, author, parent)
    }

    function Insert(id: Id, author: Id, post: Id, parent: Option<Id>): Table {
      this.(comments := comments[id := Comment(post, author, parent, false, births)], births := births + 1)
    }

    function SoftDelete(id: Id): Table
      requires id in comments
    {
      this.(comments := comments[id := comments[id].(deleted := true)])
    }

    predicate Deletable(id: Id, author: Id) {
      id in comments && !comments[id].deleted && comments[id].author == author
    }
  }

  datatype CommentError = PostNotFound | CommentNotFound | DuplicateReply | NotYourComment

  // ---------------------------------------------------------------- one request at a time

  class CommentService {
    var posts: map<Id, Post>
    var comments: map<Id, Comment>
    var births: nat

    function View(): Table
      reads this
    {
      Table(posts, comments, births)
    }

    constructor (posts: map<Id, Post>)
      ensures View() == Table(posts, map[], 0)
    {
      this.posts, comments, births := posts, map[], 0;
    }

    method FindReply(author: Id, parent: Id) returns (found: bool)
      ensures found == View().HasReply(author, parent)
    {
      var rest := comments.Keys;
      while rest != {}
        invariant rest <= comments.Keys
        invariant forall c :: c in comments.Keys - rest ==> !View().IsReply(c, author, parent)
        decreases rest
      {
        var c :| c in rest;
        if comments[c].author == author && comments[c].parent == Some(parent) && !comments[c].deleted {
          assert View().IsReply(c, author, parent);
          return true;
        }
        rest := rest - {c};
      }
      found := false;
    }

    method Create(id: Id, author: Id, post: Id, parent: Option<Id>) returns (r: Result<Id, CommentError>)
      requires id !in comments
      modifies this
      ensures var t := old(View());
              if post !in t.posts || t.posts[post].deleted then r == Err(PostNotFound) && View() == t
              else if parent.Some? && (parent.value !in t.comments || t.comments[parent.value].deleted
                                       || t.comments[parent.value].post != post) then r == Err(CommentNotFound) && View() == t
              else if parent.Some? && t.HasReply(author, parent.value) then r == Err(DuplicateReply) && View() == t
              else r == Ok(id) && View() == t.Insert(id, author, post, parent)
    {
      if post !in posts || posts[post].deleted { return Err(PostNotFound); }
      if parent.Some? {
        var p := parent.value;
        if p !in comments || comments[p].deleted || comments[p].post != post { return Err(CommentNotFound); }
        var existing := FindReply(author, p);
        if existing { return Err(DuplicateReply); }
      }
      comments := comments[id := Comment(post, author, parent, false, births)];
      births := births + 1;
      r := Ok(id);
    }

    method Delete(id: Id, author: Id) returns (r: Result<Id, CommentError>)
      modifies this
      ensures var t := old(View());
              if id !in t.comments || t.comments[id].deleted then r == Err(CommentNotFound) && View() == t
              else if t.comments[id].author != author then r == Err(NotYourComment) && View() == t
              else r == Ok(id) && View() == t.SoftDelete(id)
    {
      if id !in comments || comments[id].deleted { return Err(CommentNotFound); }
      if comments[id].author != author { return Err(NotYourComment); }
      comments := comments[id := comments[id].(deleted := true)];
      r := Ok(id);
    }
  }

  // ---------------------------------------------------------------- interleaved requests

  datatype Draft = Draft(author: Id, post: Id, parent: Option<Id>)

  datatype Phase =
    | PostChecked(draft: Draft)
    | ParentChecked(draft: Draft)
    | Locked(draft: Draft)
    | NoReplyFound(draft: Draft)
    | Deleting(target: Id)

  datatype World = World(table: Table, locks: map<(Id, Id), nat>, requests: map<nat, Phase>)

  datatype Event =
    | CheckPost(request: nat, draft: Draft)
    | CheckParent(request: nat)
    | Lock(request: nat)
    | CheckReply(request: nat)
    | Create(request: nat, id: Id)
    | Abort(request: nat)
    | CheckDelete(request: nat, target: Id, author: Id)
    | CommitDelete(request: nat)
    | DeletePost(post: Id)

  predicate HasLock(p: Phase) {
    p.Locked? || p.NoReplyFound?
  }

  /** A top-level comment is inserted straight after the checks, a reply only from the critical section. */
  predicate ReadyToInsert(w: World, r: nat) {
    r in w.requests
    && ((w.requests[r].ParentChecked? && w.requests[r].draft.parent.None?) || w.requests[r].NoReplyFound?)
  }

  predicate Enabled(w: World, e: Event) {
    match e
    case CheckPost(r, draft) => r !in w.requests
    case CheckParent(r) => r in w.requests && w.requests[r].PostChecked?
    case Lock(r) =>
      r in w.requests && w.requests[r].ParentChecked? && w.requests[r].draft.parent.Some?
      && (w.requests[r].draft.author, w.requests[r].draft.parent.value) !in w.locks
    case CheckReply(r) => r in w.requests && w.requests[r].Locked? && w.requests[r].draft.parent.Some?
    case Create(r, id) => ReadyToInsert(w, r) && id !in w.table.comments
    case Abort(r) => r in w.requests
    case CheckDelete(r, target, author) => r !in w.requests
    case CommitDelete(r) => r in w.requests && w.requests[r].Deleting? && w.requests[r].target in w.table.comments
    case DeletePost(post) => true
  }

  /** A transaction ends, by commit or rollback: its lock goes with it. */
  function Finish(w: World, r: nat): World {
    w.(locks := map k | k in w.locks && w.locks[k] != r :: w.locks[k], requests := w.requests - {r})
  }

  ghost function Next(w: World, e: Event): World
    requires Enabled(w, e)
  {
    match e
    case CheckPost(r, draft) =>
      if w.table.LivePost(draft.post) then w.(requests := w.requests[r := PostChecked(draft)]) else w
    case CheckParent(r) =>
      var draft := w.requests[r].draft;
      if draft.parent.Some? && !w.table.LiveParent(draft.parent.value, draft.post) then Finish(w, r)
      else w.(requests := w.requests[r := ParentChecked(draft)])
    case Lock(r) =>
      var draft := w.requests[r].draft;
      w.(locks := w.locks[(draft.author, draft.parent.value) := r], requests := w.requests[r := Locked(draft)])
    case CheckReply(r) =>
      var draft := w.requests[r].draft;
      if w.table.HasReply(draft.author, draft.parent.value) then Finish(w, r)
      else w.(requests := w.requests[r := NoReplyFound(draft)])
    case Create(r, id) =>
      var draft := w.requests[r].draft;
      Finish(w.(table := w.table.Insert(id, draft.author, draft.post, draft.parent)), r)
    case Abort(r) => Finish(w, r)
    case CheckDelete(r, target, author) =>
      if w.table.Deletable(target, author) then w.(requests := w.requests[r := Deleting(target)]) else w
    case CommitDelete(r) => Finish(w.(table := w.table.SoftDelete(w.requests[r].target)), r)
    case DeletePost(post) => w.(table := w.table.(posts := w.table.posts[post := Post(true)]))
  }

  ghost predicate EnabledRun(w: World, events: seq<Event>)
    decreases |events|
  {
    |events| != 0 ==> Enabled(w, events[0]) && EnabledRun(Next(w, events[0]), events[1..])
  }

  ghost function Run(w: World, events: seq<Event>): World
    requires EnabledRun(w, events)
    decreases |events|
  {
    if |events| == 0 then w else Run(Next(w, events[0]), events[1..])
  }

  // ---------------------------------------------------------------- what every interleaving keeps

  /** Every author has at most one undeleted reply per parent. */
  ghost predicate OneReplyEach(t: Table) {
    forall a, b, author, parent ::
      a in t.comments && b in t.comments && t.IsReply(a, author, parent) && t.IsReply(b, author, parent) ==> a == b
  }

  /** A parent is an older comment of the same post. */
  ghost predicate Threaded(t: Table) {
    && (forall c :: c in t.comments ==> t.comments[c].born < t.births)
    && (forall c :: c in t.comments && t.comments[c].parent.Some? ==> UnderParent(t, c, t.comments[c].parent.value))
  }

  predicate UnderParent(t: Table, c: Id, p: Id)
    requires c in t.comments
  {
    p in t.comments && t.comments[p].post == t.comments[c].post && t.comments[p].born < t.comments[c].born
  }

  /** A request in the critical section holds the lock of its pair, and what its check saw still holds. */
  ghost predicate LocksHeld(w: World) {
    forall r :: r in w.requests ==> HoldsItsLock(w, r)
  }

  ghost predicate HoldsItsLock(w: World, r: nat)
    requires r in w.requests
  {
    HasLock(w.requests[r]) ==>
      var d := w.requests[r].draft;
      && d.parent.Some?
      && (d.author, d.parent.value) in w.locks && w.locks[(d.author, d.parent.value)] == r
      && (w.requests[r].NoReplyFound? ==> !w.table.HasReply(d.author, d.parent.value))
  }

  /** A checked draft's parent exists under the draft's post; it may have been deleted since. */
  ghost predicate DraftsChecked(w: World) {
    forall r :: r in w.requests && (w.requests[r].ParentChecked? || HasLock(w.requests[r])) && w.requests[r].draft.parent.Some?
      ==> ParentExists(w.table, w.requests[r].draft)
  }

  predicate ParentExists(t: Table, d: Draft)
    requires d.parent.Some?
  {
    d.parent.value in t.comments && t.comments[d.parent.value].post == d.post
  }

  ghost predicate Inv(w: World) {
    OneReplyEach(w.table) && Threaded(w.table) && LocksHeld(w) && DraftsChecked(w)
  }

  lemma CreateKeepsInv(w: World, e: Event)
    requires Inv(w) && e.Create? && Enabled(w, e)
    ensures Inv(Next(w, e))
  {
    var d, t, t' := w.requests[e.request].draft, w.table, Next(w, e).table;
    assert HoldsItsLock(w, e.request);
    forall c | c in t'.comments && c != e.id ensures c in t.comments && t'.comments[c] == t.comments[c] {}
    assert d.parent.Some? ==> ParentExists(t, d);
    assert Threaded(t') by {
      forall c | c in t'.comments && t'.comments[c].parent.Some? ensures UnderParent(t', c, t'.comments[c].parent.value) {
        if c != e.id { assert UnderParent(t, c, t.comments[c].parent.value); }
      }
    }
    forall a, b, author, parent | a in t'.comments && b in t'.comments && t'.IsReply(a, author, parent) && t'.IsReply(b, author, parent)
      ensures a == b
    {
      if a != e.id { assert t.IsReply(a, author, parent); }
      if b != e.id { assert t.IsReply(b, author, parent); }
    }
    forall r | r in Next(w, e).requests ensures HoldsItsLock(Next(w, e), r) {
      assert HoldsItsLock(w, r);
    }
  }

  lemma CheckReplyKeepsInv(w: World, e: Event)
    requires Inv(w) && (e.CheckReply? || e.Lock? || e.Abort? || e.CheckParent?) && Enabled(w, e)
    ensures Inv(Next(w, e))
  {
    forall r | r in Next(w, e).requests ensures HoldsItsLock(Next(w, e), r) {
      if r in w.requests { assert HoldsItsLock(w, r); }
    }
  }

  lemma DeleteKeepsInv(w: World, e: Event)
    requires Inv(w) && e.CommitDelete? && Enabled(w, e)
    ensures Inv(Next(w, e))
  {
    var t, t' := w.table, Next(w, e).table;
    forall c, author, parent | c in t'.comments && t'.IsReply(c, author, parent) ensures t.IsReply(c, author, parent) {}
    forall c | c in t'.comments && t'.comments[c].parent.Some? ensures UnderParent(t', c, t'.comments[c].parent.value) {
      assert UnderParent(t, c, t.comments[c].parent.value);
    }
    forall r | r in Next(w, e).requests ensures HoldsItsLock(Next(w, e), r) {
      assert HoldsItsLock(w, r);
    }
    forall r | r in Next(w, e).requests && (w.requests[r].ParentChecked? || HasLock(w.requests[r])) && w.requests[r].draft.parent.Some?
      ensures ParentExists(t', w.requests[r].draft)
    {
      assert ParentExists(t, w.requests[r].draft);
    }
  }

  lemma OtherKeepsInv(w: World, e: Event)
    requires Inv(w) && (e.CheckPost? || e.CheckDelete? || e.DeletePost?) && Enabled(w, e)
    ensures Inv(Next(w, e))
  {
    var t, t' := w.table, Next(w, e).table;
    assert t'.comments == t.comments;
    forall c | c in t'.comments && t'.comments[c].parent.Some? ensures UnderParent(t', c, t'.comments[c].parent.value) {
      assert UnderParent(t, c, t.comments[c].parent.value);
    }
    forall c, author, parent | c in t'.comments && t'.IsReply(c, author, parent) ensures t.IsReply(c, author, parent) {}
    forall r | r in Next(w, e).requests ensures HoldsItsLock(Next(w, e), r) {
      if r in w.requests { assert HoldsItsLock(w, r); }
    }
    forall r | r in w.requests && (w.requests[r].ParentChecked? || HasLock(w.requests[r])) && w.requests[r].draft.parent.Some?
      ensures ParentExists(t', w.requests[r].draft)
    {
      assert ParentExists(t, w.requests[r].draft);
    }
  }

  /** In every interleaving of creates and deletes: one undeleted reply per author and parent, and proper threads. */
  lemma {:induction false} EveryRunKeepsThreads(w: World, events: seq<Event>)
    requires Inv(w) && EnabledRun(w, events)
    ensures Inv(Run(w, events))
    decreases |events|
  {
    if |events| != 0 {
      var e := events[0];
      match e {
        case Create(_, _) => CreateKeepsInv(w, e);
        case CheckReply(_) => CheckReplyKeepsInv(w, e);
        case Lock(_) => CheckReplyKeepsInv(w, e);
        case Abort(_) => CheckReplyKeepsInv(w, e);
        case CheckParent(_) => CheckReplyKeepsInv(w, e);
        case CommitDelete(_) => DeleteKeepsInv(w, e);
        case _ => OtherKeepsInv(w, e);
      }
      EveryRunKeepsThreads(Next(w, e), events[1..]);
    }
  }

  /** The reply chain from a comment up to its top-level comment. */
  ghost function Chain(t: Table, c: Id): seq<Id>
    requires Threaded(t) && c in t.comments
    decreases t.comments[c].born
  {
    if t.comments[c].parent.None? then [c]
    else
      var p := t.comments[c].parent.value;
      assert UnderParent(t, c, p);
      [c] + Chain(t, p)
  }

  /** Reply chains are finite and acyclic, and a whole chain belongs to one post. */
  lemma {:induction false} ChainsAreAcyclic(t: Table, c: Id)
    requires Threaded(t) && c in t.comments
    ensures var chain := Chain(t, c);
            && (forall i :: 0 <= i < |chain| ==> chain[i] in t.comments && t.comments[chain[i]].post == t.comments[c].post)
            && (forall i :: 0 <= i < |chain| - 1 ==> t.comments[chain[i]].parent == Some(chain[i + 1]))
            && t.comments[chain[|chain| - 1]].parent.None?
            && (forall i, j :: 0 <= i < j < |chain| ==> chain[i] != chain[j])
            && (forall i :: 0 <= i < |chain| ==> t.comments[chain[i]].born <= t.comments[c].born)
    decreases t.comments[c].born
  {
    if t.comments[c].parent.Some? {
      var p := t.comments[c].parent.value;
      assert UnderParent(t, c, p);
      ChainsAreAcyclic(t, p);
      var chain, rest := Chain(t, c), Chain(t, p);
      assert chain == [c] + rest;
      forall i | 0 <= i < |rest| ensures t.comments[rest[i]].born < t.comments[c].born {}
    }
  }

  // ---------------------------------------------------------------- what a create and a delete leave

  /** A created comment is as drafted, undeleted and the youngest; a reply counts as its author's one reply; nothing else changes. */
  lemma CreatedAsDrafted(w: World, r: nat, id: Id)
    requires Inv(w) && Enabled(w, Create(r, id))
    ensures var d, t, t' := w.requests[r].draft, w.table, Next(w, Create(r, id)).table;
            && id in t'.comments && t'.comments[id].author == d.author && t'.comments[id].post == d.post
            && t'.comments[id].parent == d.parent && !t'.comments[id].deleted
            && (forall c :: c in t.comments ==> c in t'.comments && t'.comments[c] == t.comments[c])
            && (forall c :: c in t.comments ==> t.comments[c].born < t'.comments[id].born)
            && (d.parent.Some? ==> t'.HasReply(d.author, d.parent.value))
            && t'.posts == t.posts
  {
    var d, t' := w.requests[r].draft, Next(w, Create(r, id)).table;
    if d.parent.Some? { assert t'.IsReply(id, d.author, d.parent.value); }
  }

  /**
   A deleted comment is gone for good: it is not the author's reply any more, so the author may
   reply there again; it cannot be deleted again or replied to; and no other comment changes.
   */
  lemma DeletedStopsCounting(w: World, r: nat)
    requires Inv(w) && Enabled(w, CommitDelete(r))
    ensures var id, t, t' := w.requests[r].target, w.table, Next(w, CommitDelete(r)).table;
            && id in t'.comments && t'.comments[id].deleted
            && (forall author, parent :: !t'.IsReply(id, author, parent))
            && (forall author :: !t'.Deletable(id, author)) && (forall post :: !t'.LiveParent(id, post))
            && (!t.comments[id].deleted && t.comments[id].parent.Some? ==>
                  !t'.HasReply(t.comments[id].author, t.comments[id].parent.value))
            && t'.comments.Keys == t.comments.Keys && (forall c :: c in t.comments && c != id ==> t'.comments[c] == t.comments[c])
            && t'.comments[id].author == t.comments[id].author && t'.comments[id].post == t.comments[id].post
            && t'.comments[id].parent == t.comments[id].parent
  {
    var id, t, t' := w.requests[r].target, w.table, Next(w, CommitDelete(r)).table;
    if !t.comments[id].deleted && t.comments[id].parent.Some? {
      var author, parent := t.comments[id].author, t.comments[id].parent.value;
      assert t.IsReply(id, author, parent);
      forall c | c in t'.comments && t'.IsReply(c, author, parent) ensures false {
        assert t.IsReply(c, author, parent);
      }
    }
  }

  /** A reply gets past its parent check exactly when the parent exists, undeleted, under the same post. */
  lemma ParentCheckIsExact(w: World, r: nat)
    requires Enabled(w, CheckParent(r)) && w.requests[r].draft.parent.Some?
    ensures var d := w.requests[r].draft;
            var p := d.parent.value;
            r in Next(w, CheckParent(r)).requests <==>
              p in w.table.comments && !w.table.comments[p].deleted && w.table.comments[p].post == d.post
  {
  }

  /** A draft gets past its post check exactly when the post exists undeleted, and a delete past its own exactly for the author's undeleted comment. */
  lemma FirstChecksAreExact(w: World, r: nat, draft: Draft, target: Id, author: Id)
    requires r !in w.requests
    ensures r in Next(w, CheckPost(r, draft)).requests <==> draft.post in w.table.posts && !w.table.posts[draft.post].deleted
    ensures r in Next(w, CheckDelete(r, target, author)).requests <==>
              target in w.table.comments && !w.table.comments[target].deleted && w.table.comments[target].author == author
  {
  }
}
