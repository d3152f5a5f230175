/** Forks of forks: a fork can always be forked again, and the id maps compose. */
module Lineage {
  import opened Results
  import opened Rows
  import opened Provenance
  import opened Tables
  import opened Forking
  import opened Schema

  lemma IdsOfCopies(ms: seq<Message>, ids: map<int, int>, copies: seq<Message>)
    requires |copies| == |ms|
    requires ids.Keys == MessageIds(ms)
    requires forall i :: 0 <= i < |ms| ==> ms[i].id in ids && copies[i].id == ids[ms[i].id]
    ensures MessageIds(copies) == Image(ids)
  {
    forall n | n in Image(ids) ensures n in MessageIds(copies) {
      var k :| k in ids && ids[k] == n;
      assert k in MessageIds(ms);
      var m :| m in ms && m.id == k;
      var i :| 0 <= i < |ms| && ms[i] == m;
      assert copies[i] in copies;
    }
    forall n | n in MessageIds(copies) ensures n in Image(ids) {
      var m :| m in copies && m.id == n;
      var i :| 0 <= i < |copies| && copies[i] == m;
    }
  }

  /** After a fork, the ids that a second fork can rename are the new ids of the first. */
  lemma NextIds(t: Tables, a: string, b: string, c: string, now: int)
    requires WellFormed(t) && Fork(t, a, b, now).Ok?
    ensures ForkRenaming(Fork(t, a, b, now).value, b, c).ids.Keys == Image(ForkRenaming(t, a, b).ids)
  {
    var t1, f := Fork(t, a, b, now).value, ForkRenaming(t, a, b).ids;
    ForkKeepsSchema(t, a, b, now);
    ForkCopiesTranscript(t, a, b, now);
    hide Fork, Listing, IdMap;
    IdsOfCopies(Listing(t.messages, a), f, Listing(t1.messages, b));
    ForkIdMap(t1.messages, b, t1.nextMessageId);
  }

  lemma FollowedColumnIsCurrent(before: JsonColumn, after: JsonColumn, ren: Renaming, next: Renaming)
    requires JsonFollows(before, after, ren)
    requires forall n :: n in Image(ren.ids) ==> n in next.ids
    ensures ColumnCurrent(after, next)
  {
    var m, n := Marks(before.value), Marks(after.value);
    forall i | 0 <= i < |n| ensures RemapMark(n[i], next).Some? {
      assert RemapMark(m[i], ren) == Some(n[i]);
    }
  }

  lemma ForkAddsTarget(t: Tables, a: string, b: string, now: int)
    requires Fork(t, a, b, now).Ok?
    ensures HasChat(Fork(t, a, b, now).value.chats, b)
  {
    var chats := Fork(t, a, b, now).value.chats;
    assert chats[|t.chats|] in chats;
  }

  lemma FollowedGistsAreCurrent(gs: seq<Gist>, copies: seq<Gist>, ren: Renaming, next: Renaming)
    requires |copies| == |gs| && forall i :: 0 <= i < |gs| ==> GistFollows(gs[i], copies[i], ren)
    requires next.ids.Keys == Image(ren.ids)
    ensures forall g :: g in copies ==> GistCurrent(g, next)
  {
    forall g | g in copies ensures GistCurrent(g, next) {
      var i :| 0 <= i < |copies| && copies[i] == g;
      assert GistFollows(gs[i], g, ren);
      FollowedColumnIsCurrent(gs[i].metadata, g.metadata, ren, next);
    }
  }

  lemma FollowedInspectionIsCurrent(x: Inspection, y: Inspection, ren: Renaming, next: Renaming)
    requires InspectionFollows(x, y, ren)
    requires next.ids.Keys == Image(ren.ids)
    ensures ColumnCurrent(y.payload, next)
  {
    FollowedColumnIsCurrent(x.payload, y.payload, ren, next);
  }

  /** Everything a fork wrote is current provenance of the new chat. */
  lemma ForkedRowsAreCurrent(t: Tables, a: string, b: string, now: int, next: Renaming)
    requires WellFormed(t) && Fork(t, a, b, now).Ok?
    requires next.ids.Keys == Image(ForkRenaming(t, a, b).ids)
    ensures var t1 := Fork(t, a, b, now).value;
            && (forall g :: g in t1.gists && g.chatId == b ==> GistCurrent(g, next))
            && (forall y :: y in t1.inspections && y.chatId == b ==> ColumnCurrent(y.payload, next))
  {
    var t1, ren := Fork(t, a, b, now).value, ForkRenaming(t, a, b);
    var gs, copies := Filter(GistIn(a), t.gists), Filter(GistIn(b), t1.gists);
    ForkCarriesGists(t, a, b, now);
    ForkCarriesInspections(t, a, b, now);
    hide Fork, ForkRenaming, WellFormed, GistFollows, GistCurrent, InspectionFollows, ColumnCurrent;
    FollowedGistsAreCurrent(gs, copies, ren, next);
    forall y | y in t1.inspections && y.chatId == b ensures ColumnCurrent(y.payload, next) {
      var x :| x in t.inspections && x.chatId == a && InspectionFollows(x, y, ren);
      FollowedInspectionIsCurrent(x, y, ren, next);
    }
  }

  /** A fork can be forked again, to any chat id that is still free. */
  lemma ForkForkable(t: Tables, a: string, b: string, c: string, now: int, later: int)
    requires WellFormed(t) && Fork(t, a, b, now).Ok?
    requires !HasChat(Fork(t, a, b, now).value.chats, c)
    ensures Fork(Fork(t, a, b, now).value, b, c, later).Ok?
  {
    hide *;
    var t1 := Fork(t, a, b, now).value;
    ForkAddsTarget(t, a, b, now);
    NextIds(t, a, b, c, now);
    ForkKeepsSchema(t, a, b, now);
    ForkedRowsAreCurrent(t, a, b, now, ForkRenaming(t1, b, c));
    ForkSucceedsIff(t1, b, c, later);
  }

  ghost predicate ImageListing(before: seq<Message>, after: seq<Message>, ids: map<int, int>, target: string) {
    && |after| == |before|
    && forall i :: 0 <= i < |before| ==>
         && before[i].id in ids
         && after[i] == before[i].(id := ids[before[i].id], chatId := target, summarized := true)
  }

  lemma ImagesCompose(x: seq<Message>, y: seq<Message>, z: seq<Message>, f: map<int, int>, g: map<int, int>,
                      b: string, c: string)
    requires ImageListing(x, y, f, b) && ImageListing(y, z, g, c)
    ensures ImageListing(x, z, Compose(f, g), c)
  {
    forall i | 0 <= i < |x|
      ensures x[i].id in Compose(f, g)
      ensures z[i] == x[i].(id := Compose(f, g)[x[i].id], chatId := c, summarized := true)
    {
      assert y[i].id == f[x[i].id] && z[i].id == g[y[i].id];
    }
  }

  /** The fork of a fork is the image of the original under the composed id map. */
  lemma ForkOfForkTranscript(t: Tables, a: string, b: string, c: string, now: int, later: int)
    requires WellFormed(t) && Fork(t, a, b, now).Ok? && Fork(Fork(t, a, b, now).value, b, c, later).Ok?
    ensures var t1 := Fork(t, a, b, now).value;
            var t2 := Fork(t1, b, c, later).value;
            var f, g := ForkRenaming(t, a, b).ids, ForkRenaming(t1, b, c).ids;
            ImageListing(Listing(t.messages, a), Listing(t2.messages, c), Compose(f, g), c)
  {
    var t1 := Fork(t, a, b, now).value;
    var t2 := Fork(t1, b, c, later).value;
    var f, g := ForkRenaming(t, a, b).ids, ForkRenaming(t1, b, c).ids;
    ForkKeepsSchema(t, a, b, now);
    ForkCopiesTranscript(t, a, b, now);
    ForkCopiesTranscript(t1, b, c, later);
    hide Fork, Listing, ForkRenaming, WellFormed;
    ImagesCompose(Listing(t.messages, a), Listing(t1.messages, b), Listing(t2.messages, c), f, g, b, c);
  }

  /** What one gist becomes: endpoints and metadata through the given renaming. */
  ghost predicate GistImage(before: Gist, after: Gist, ren: Renaming) {
    && Some(after.startMessageId) == RemapColumn(before.startMessageId, ren.ids)
    && Some(after.endMessageId) == RemapColumn(before.endMessageId, ren.ids)
    && Some(after.metadata) == RemapJson(before.metadata, ren)
  }

  lemma {:induction false} ForkGistsImage(gs: seq<Gist>, ren: Renaming, first: int, k: nat)
    requires ForkGists(gs, ren, first).Some? && k < |gs|
    ensures |ForkGists(gs, ren, first).value| == |gs| && GistImage(gs[k], ForkGists(gs, ren, first).value[k], ren)
  {
    ForkGistsExact(gs, ren, first);
    if k > 0 {
      ForkGistsImage(gs[1..], ren, first + 1, k - 1);
    }
  }

  lemma GistImagesCompose(x: Gist, y: Gist, z: Gist, f: map<int, int>, g: map<int, int>, a: string, b: string, c: string)
    requires GistImage(x, y, Renaming(f, a, b)) && GistImage(y, z, Renaming(g, b, c))
    requires x.metadata.Decoded? ==> !MentionsChat(x.metadata.value, b)
    ensures GistImage(x, z, Renaming(Compose(f, g), a, c))
  {
    if x.metadata.Decoded? {
      RemapComposes(x.metadata.value, f, g, a, b, c);
    }
  }

  /** Gist k of the second fork is gist k of the original under the composed renaming, when the
      original metadata did not already name the middle chat. */
  lemma ForkOfForkGist(t: Tables, a: string, b: string, c: string, now: int, later: int, k: nat)
    requires WellFormed(t) && Fork(t, a, b, now).Ok? && Fork(Fork(t, a, b, now).value, b, c, later).Ok?
    requires k < |Filter(GistIn(a), t.gists)|
    requires var column := Filter(GistIn(a), t.gists)[k].metadata;
             column.Decoded? ==> !MentionsChat(column.value, b)
    ensures var t1 := Fork(t, a, b, now).value;
            var t2 := Fork(t1, b, c, later).value;
            var f, g := ForkRenaming(t, a, b).ids, ForkRenaming(t1, b, c).ids;
            && k < |Filter(GistIn(c), t2.gists)|
            && GistImage(Filter(GistIn(a), t.gists)[k], Filter(GistIn(c), t2.gists)[k], Renaming(Compose(f, g), a, c))
  {
    var t1 := Fork(t, a, b, now).value;
    var t2 := Fork(t1, b, c, later).value;
    ForkKeepsSchema(t, a, b, now);
    ForkedGists(t, a, b, now);
    ForkedGists(t1, b, c, later);
    var xs, ys, zs := Filter(GistIn(a), t.gists), Filter(GistIn(b), t1.gists), Filter(GistIn(c), t2.gists);
    var f, g := ForkRenaming(t, a, b), ForkRenaming(t1, b, c);
    assert f.source == a && f.target == b && g.source == b && g.target == c;
    hide Fork, WellFormed, ForkGists, GistImage, Filter, ForkRenaming;
    ForkGistsImage(xs, f, t.nextGistId, k);
    ForkGistsImage(ys, g, t1.nextGistId, k);
    GistImagesCompose(xs[k], ys[k], zs[k], f.ids, g.ids, a, b, c);
  }
}
