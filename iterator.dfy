/** The podcast collection and its topic-filtered cursor. The collection is a
    list changed in place; every cursor holds the live list (not a copy)
    and a position into it. */
module Iterator {
  import opened Common

  /** The three topics a podcast or a cursor can carry. */
  datatype Topic = Nature | Tech | All

  /** A podcast. Its author and topic are fixed here (see README). */
  class Podcast {
    const author: string
    const topic: Topic

    constructor (author: string, topic: Topic)
      ensures this.author == author && this.topic == topic
    {
      this.author := author;
      this.topic := topic;
    }
  }

  /** The test of hasNext: the podcast's own topic is the cursor's, or the
      cursor is for all topics. A podcast tagged ALL is therefore only seen
      by a cursor for ALL. */
  function Matches(p: Podcast, topic: Topic): (b: bool)
    ensures p.topic == All ==> (b <==> topic == All)
    ensures topic == All ==> b
  {
    p.topic == topic || topic == All
  }

  /** The matching podcasts of `s`, in list order: the reference for what a
      cursor hands out. */
  function Filter(s: seq<Podcast>, topic: Topic): (r: seq<Podcast>)
    ensures |r| <= |s|
    ensures topic == All ==> r == s
  {
    if s == [] then []
    else (if Matches(s[0], topic) then [s[0]] else []) + Filter(s[1..], topic)
  }

  /** Filter keeps exactly the matching podcasts of the list. */
  lemma {:induction false} FilterMembers(s: seq<Podcast>, topic: Topic)
    ensures forall p :: p in Filter(s, topic) <==> p in s && Matches(p, topic)
  {
    if s != [] {
      FilterMembers(s[1..], topic);
      assert s == [s[0]] + s[1..];
    }
  }

  /** What is left for a cursor at `from`: the matching podcasts at or after
      it (nothing once the position has run past the end). */
  function Remaining(s: seq<Podcast>, topic: Topic, from: nat): seq<Podcast>
  {
    if from < |s| then Filter(s[from..], topic) else []
  }

  /** Where the loop of hasNext stops when started at `from`: the first
      matching position at or after `from`, or the end of the list. A
      position already past the end is left as it is. */
  function NextMatch(s: seq<Podcast>, topic: Topic, from: nat): (k: nat)
    ensures from <= k
    ensures from < |s| ==> k <= |s|
    ensures from >= |s| ==> k == from
    ensures k < |s| ==> Matches(s[k], topic)
    ensures forall i :: from <= i < k && i < |s| ==> !Matches(s[i], topic)
    decreases |s| - from
  {
    if from >= |s| || Matches(s[from], topic) then from
    else NextMatch(s, topic, from + 1)
  }

  /** hasNext answers false exactly when nothing at or after the position
      matches, and it then leaves the position at the end of the list. */
  lemma NoMatchIff(s: seq<Podcast>, topic: Topic, from: nat)
    requires from <= |s|
    ensures NextMatch(s, topic, from) >= |s| <==> forall i :: from <= i < |s| ==> !Matches(s[i], topic)
    ensures NextMatch(s, topic, from) >= |s| ==> NextMatch(s, topic, from) == |s|
  {
  }

  /** Calling hasNext twice in a row moves the position only once. */
  lemma NextMatchIdempotent(s: seq<Podcast>, topic: Topic, from: nat)
    ensures NextMatch(s, topic, NextMatch(s, topic, from)) == NextMatch(s, topic, from)
  {
  }

  /** One podcast at the front of what is left: it is handed out when it
      matches and skipped otherwise. */
  lemma RemainingStep(s: seq<Podcast>, topic: Topic, from: nat)
    requires from < |s|
    ensures Remaining(s, topic, from)
      == (if Matches(s[from], topic) then [s[from]] else []) + Remaining(s, topic, from + 1)
  {
    assert s[from..][1..] == s[from + 1..];
  }

  /** Skipping the non-matching podcasts loses nothing of what is left. */
  lemma {:induction false} SkipLosesNothing(s: seq<Podcast>, topic: Topic, from: nat)
    ensures Remaining(s, topic, NextMatch(s, topic, from)) == Remaining(s, topic, from)
    decreases |s| - from
  {
    if from < |s| && !Matches(s[from], topic) {
      RemainingStep(s, topic, from);
      SkipLosesNothing(s, topic, from + 1);
    }
  }

  /** A matching podcast at `at` is handed out, then what the next hasNext
      finds is what is left. */
  lemma DrainStep(s: seq<Podcast>, topic: Topic, at: nat)
    requires at < |s| && Matches(s[at], topic)
    ensures Remaining(s, topic, at) == [s[at]] + Remaining(s, topic, NextMatch(s, topic, at + 1))
  {
    RemainingStep(s, topic, at);
    SkipLosesNothing(s, topic, at + 1);
  }

  lemma AppendOne<T>(a: seq<T>, x: T, b: seq<T>)
    ensures (a + [x]) + b == a + ([x] + b)
  {
  }

  /** The collection: a list of podcasts, added to at the end and removed
      from by identity. */
  class PodcastCollectionList {
    var podcasts: seq<Podcast>

    constructor ()
      ensures podcasts == []
    {
      podcasts := [];
    }

    method AddPodcast(podcast: Podcast)
      modifies this
      ensures podcasts == old(podcasts) + [podcast]
    {
      podcasts := podcasts + [podcast];
    }

    /** List.remove(Object): the first occurrence goes, an absent podcast
        changes nothing. */
    method RemovePodcast(podcast: Podcast)
      modifies this
      ensures podcasts == RemoveFirst(old(podcasts), podcast)
    {
      podcasts := RemoveFirst(podcasts, podcast);
    }

    /** A new cursor at position 0 over this very list. */
    method Iterator(topic: Topic) returns (it: PodcastIterator)
      ensures fresh(it)
      ensures it.topic == topic && it.owner == this && it.position == 0
    {
      it := new PodcastIterator(topic, this);
    }
  }

  /** The inner cursor class. `owner` stands for the shared list: the cursor
      always reads the collection's current contents. */
  class PodcastIterator {
    const topic: Topic
    const owner: PodcastCollectionList
    var position: nat

    constructor (topic: Topic, owner: PodcastCollectionList)
      ensures this.topic == topic && this.owner == owner && position == 0
    {
      this.topic := topic;
      this.owner := owner;
      position := 0;
    }

    /** Advances past the non-matching podcasts and stops on a matching one
        without consuming it. */
    method HasNext() returns (r: bool)
      modifies this
      ensures position == NextMatch(owner.podcasts, topic, old(position))
      ensures r <==> position < |owner.podcasts|
    {
      while position < |owner.podcasts|
        invariant old(position) <= position
        invariant NextMatch(owner.podcasts, topic, position) == NextMatch(owner.podcasts, topic, old(position))
        decreases |owner.podcasts| - position
      {
        var c := owner.podcasts[position];
        if c.topic == topic || topic == All {
          return true;
        }
        position := position + 1;
      }
      return false;
    }

    /** Hands out the podcast at the position, whatever its topic, and steps
        past it. Past the end, List.get throws before the step: `None`. */
    method Next() returns (p: Option<Podcast>)
      modifies this
      ensures old(position) < |owner.podcasts| ==>
        p == Some(owner.podcasts[old(position)]) && position == old(position) + 1
      ensures old(position) >= |owner.podcasts| ==> p == None && position == old(position)
    {
      if position < |owner.podcasts| {
        p := Some(owner.podcasts[position]);
        position := position + 1;
      } else {
        p := None;
      }
    }

    /** The client loop `while (it.hasNext()) use(it.next());`: it hands out
        exactly the matching podcasts from the position on, in list order. */
    method Drain() returns (out: seq<Podcast>)
      modifies this
      ensures out == Remaining(owner.podcasts, topic, old(position))
      ensures position >= |owner.podcasts|
    {
      ghost var s := owner.podcasts;
      ghost var start := position;
      out := [];
      var more := HasNext();
      SkipLosesNothing(s, topic, start);
      while more
        invariant owner.podcasts == s
        invariant more <==> position < |s|
        invariant more ==> Matches(s[position], topic)
        invariant out + Remaining(s, topic, position) == Remaining(s, topic, start)
        decreases |s| - position
      {
        out, more := TakeOne(s, start, out);
      }
    }

    /** One turn of that loop: next() and then hasNext(). */
    method TakeOne(ghost s: seq<Podcast>, ghost start: nat, out: seq<Podcast>) returns (out': seq<Podcast>, more: bool)
      requires owner.podcasts == s && position < |s| && Matches(s[position], topic)
      requires out + Remaining(s, topic, position) == Remaining(s, topic, start)
      modifies this
      ensures owner.podcasts == s && old(position) < position
      ensures more <==> position < |s|
      ensures more ==> Matches(s[position], topic)
      ensures out' + Remaining(s, topic, position) == Remaining(s, topic, start)
    {
      ghost var at := position;
      DrainStep(s, topic, at);
      var p := Next();
      out' := out + [p.value];
      more := HasNext();
      AppendOne(out, s[at], Remaining(s, topic, position));
    }
  }
}

/** The demo: four podcasts and one cursor per topic. */
module IteratorScenarios {
  import opened Common
  import opened Iterator

  method Application() returns (nature: seq<Podcast>, tech: seq<Podcast>, all: seq<Podcast>,
                                rossi: Podcast, verdi: Podcast, doe: Podcast, binted: Podcast)
    ensures rossi.author == "Mario Rossi" && verdi.author == "Giuseppe Verdi"
    ensures doe.author == "John Doe" && binted.author == "Bogus Binted"
    ensures nature == [rossi]
    ensures tech == [verdi, doe]
    ensures all == [rossi, verdi, doe, binted]
  {
    var podcasts := new PodcastCollectionList();
    rossi := new Podcast("Mario Rossi", Nature);
    verdi := new Podcast("Giuseppe Verdi", Tech);
    doe := new Podcast("John Doe", Tech);
    binted := new Podcast("Bogus Binted", All);
    podcasts.AddPodcast(rossi);
    podcasts.AddPodcast(verdi);
    podcasts.AddPodcast(doe);
    podcasts.AddPodcast(binted);
    var s := [rossi, verdi, doe, binted];
    assert podcasts.podcasts == s;
    var natureIt := podcasts.Iterator(Nature);
    var techIt := podcasts.Iterator(Tech);
    var allIt := podcasts.Iterator(All);
    nature := natureIt.Drain();
    tech := techIt.Drain();
    all := allIt.Drain();
    assert s[0..] == s;
    assert all == s;
    DemoFilters(rossi, verdi, doe, binted);
  }

  /** The demo list filtered by NATURE and by TECH. */
  lemma DemoFilters(rossi: Podcast, verdi: Podcast, doe: Podcast, binted: Podcast)
    requires rossi.topic == Nature && verdi.topic == Tech && doe.topic == Tech && binted.topic == All
    ensures Filter([rossi, verdi, doe, binted], Nature) == [rossi]
    ensures Filter([rossi, verdi, doe, binted], Tech) == [verdi, doe]
  {
    var s := [rossi, verdi, doe, binted];
    assert s[1..] == [verdi, doe, binted] && s[1..][1..] == [doe, binted];
    assert [doe, binted][1..] == [binted] && [binted][1..] == [];
    assert Filter([binted], Nature) == [] && Filter([binted], Tech) == [];
    assert Filter([doe, binted], Nature) == [] && Filter([doe, binted], Tech) == [doe];
    assert Filter([verdi, doe, binted], Nature) == [];
    assert Filter([verdi, doe, binted], Tech) == [verdi] + [doe];
  }

  /** A cursor made before an add sees the podcast added after it. */
  method SharedList() returns (seen: seq<Podcast>, late: Podcast)
    ensures seen == [late]
  {
    var podcasts := new PodcastCollectionList();
    var it := podcasts.Iterator(Tech);
    late := new Podcast("Late", Tech);
    podcasts.AddPodcast(late);
    assert podcasts.podcasts == [late];
    seen := it.Drain();
    assert [late][0..] == [late] && [late][1..] == [];
  }

  /** A podcast removed after a cursor was made is not handed out by it. */
  method RemovedIsNotSeen() returns (seen: seq<Podcast>, kept: Podcast)
    ensures seen == [kept]
  {
    var podcasts := new PodcastCollectionList();
    var gone := new Podcast("Gone", Tech);
    kept := new Podcast("Kept", Tech);
    podcasts.AddPodcast(gone);
    podcasts.AddPodcast(kept);
    var it := podcasts.Iterator(Tech);
    assert podcasts.podcasts == [gone] + [kept];
    podcasts.RemovePodcast(gone);
    RemoveFirstHead(gone, [kept]);
    assert podcasts.podcasts == [kept];
    seen := it.Drain();
    assert [kept][0..] == [kept] && [kept][1..] == [];
  }
}
