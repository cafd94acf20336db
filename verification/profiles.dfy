/** The per-commenter tone profiles: a process-wide table from commenter id
    to a record of four counters, created lazily on first reference. */
module Profiles {

  const TotalKey := "total_comments"
  const PositiveKey := "positive"
  const NegativeKey := "negative"
  const NeutralKey := "neutral"

  /** The keys of a profile record; `prediction in profile` tests against these. */
  const Keys: set<string> := {TotalKey, PositiveKey, NegativeKey, NeutralKey}

  /** The keys that count one sentiment each. */
  const Sentiments: set<string> := {PositiveKey, NegativeKey, NeutralKey}

  datatype Profile = Profile(totalComments: nat, positive: nat, negative: nat, neutral: nat)
  {
    /** `profile[key]` */
    function Get(key: string): (r: nat)
      requires key in Keys
      ensures key == TotalKey ==> r == totalComments
      ensures key == PositiveKey ==> r == positive
      ensures key == NegativeKey ==> r == negative
      ensures key == NeutralKey ==> r == neutral
    {
      if key == TotalKey then totalComments
      else if key == PositiveKey then positive
      else if key == NegativeKey then negative
      else neutral
    }

    /** `profile[key] += 1`: that counter goes up by one, the others stay. */
    function Bump(key: string): (r: Profile)
      requires key in Keys
      ensures r.totalComments == totalComments + (if key == TotalKey then 1 else 0)
      ensures r.positive == positive + (if key == PositiveKey then 1 else 0)
      ensures r.negative == negative + (if key == NegativeKey then 1 else 0)
      ensures r.neutral == neutral + (if key == NeutralKey then 1 else 0)
    {
      if key == TotalKey then this.(totalComments := totalComments + 1)
      else if key == PositiveKey then this.(positive := positive + 1)
      else if key == NegativeKey then this.(negative := negative + 1)
      else this.(neutral := neutral + 1)
    }

    function SentimentSum(): nat
    {
      positive + negative + neutral
    }
  }

  /** The record the table's default factory builds: every counter zero. */
  function Fresh(): (p: Profile)
    ensures forall k :: k in Keys ==> p.Get(k) == 0
  {
    Profile(0, 0, 0, 0)
  }

  /** A record is determined by the values of its four keys. */
  lemma KeysDetermineProfile(p: Profile, q: Profile)
    requires forall k :: k in Keys ==> p.Get(k) == q.Get(k)
    ensures p == q
  {
    assert p.Get(TotalKey) == q.Get(TotalKey) && p.Get(PositiveKey) == q.Get(PositiveKey);
    assert p.Get(NegativeKey) == q.Get(NegativeKey) && p.Get(NeutralKey) == q.Get(NeutralKey);
  }

  /** The record after one update with `prediction`: `total_comments` always
      goes up, and the counter named `prediction` goes up when the record has
      such a key — so the label "total_comments" raises the total twice, and
      an unknown label raises only the total. */
  function Apply(p: Profile, prediction: string): (r: Profile)
    ensures r.totalComments == p.totalComments + 1 + (if prediction == TotalKey then 1 else 0)
    ensures r.positive == p.positive + (if prediction == PositiveKey then 1 else 0)
    ensures r.negative == p.negative + (if prediction == NegativeKey then 1 else 0)
    ensures r.neutral == p.neutral + (if prediction == NeutralKey then 1 else 0)
  {
    var q := p.Bump(TotalKey);
    if prediction in Keys then q.Bump(prediction) else q
  }

  /** `commenter_profiles[id]` as read before the update: the stored record,
      or the fresh one when `id` has none yet. */
  function Lookup(profiles: map<string, Profile>, id: string): (p: Profile)
    ensures id in profiles ==> p == profiles[id]
    ensures id !in profiles ==> p.totalComments == p.positive == p.negative == p.neutral == 0
  {
    if id in profiles then profiles[id] else Fresh()
  }

  // -----------------------------------------------------------------------
  // A profile as a function of the labels it has seen.
  // -----------------------------------------------------------------------

  /** The record after the updates `labels`, oldest first, starting fresh. */
  function Replay(labels: seq<string>): Profile
    decreases |labels|
  {
    if labels == [] then Fresh()
    else Apply(Replay(labels[..|labels| - 1]), labels[|labels| - 1])
  }

  /** How many entries of `labels` equal `key`. */
  function Count(labels: seq<string>, key: string): nat
    decreases |labels|
  {
    if labels == [] then 0
    else Count(labels[..|labels| - 1], key) + (if labels[|labels| - 1] == key then 1 else 0)
  }

  lemma ReplayAppend(labels: seq<string>, prediction: string)
    ensures Replay(labels + [prediction]) == Apply(Replay(labels), prediction)
  {
    assert (labels + [prediction])[..|labels|] == labels;
  }

  /** Each counter is the number of updates with its label; the total also
      counts every update once more. */
  lemma {:induction false} ReplayCounts(labels: seq<string>)
    ensures Replay(labels).totalComments == |labels| + Count(labels, TotalKey)
    ensures Replay(labels).positive == Count(labels, PositiveKey)
    ensures Replay(labels).negative == Count(labels, NegativeKey)
    ensures Replay(labels).neutral == Count(labels, NeutralKey)
    decreases |labels|
  {
    if labels != [] {
      ReplayCounts(labels[..|labels| - 1]);
    }
  }

  /** The three sentiment counts never exceed the number of labels, and
      reach it exactly when every label is a sentiment. */
  lemma {:induction false} SentimentCountsBound(labels: seq<string>)
    ensures Count(labels, PositiveKey) + Count(labels, NegativeKey) + Count(labels, NeutralKey) <= |labels|
    ensures Count(labels, PositiveKey) + Count(labels, NegativeKey) + Count(labels, NeutralKey) == |labels|
            <==> forall i :: 0 <= i < |labels| ==> labels[i] in Sentiments
    decreases |labels|
  {
    if labels != [] {
      var init := labels[..|labels| - 1];
      SentimentCountsBound(init);
      assert forall i :: 0 <= i < |init| ==> init[i] == labels[i];
    }
  }

  lemma {:induction false} CountAbsent(labels: seq<string>, key: string)
    requires forall i :: 0 <= i < |labels| ==> labels[i] != key
    ensures Count(labels, key) == 0
    decreases |labels|
  {
    if labels != [] {
      var init := labels[..|labels| - 1];
      assert forall i :: 0 <= i < |init| ==> init[i] == labels[i];
      CountAbsent(init, key);
    }
  }

  /** The sentiment counters of a profile add up to at most its total, and
      to exactly its total only when every update used a sentiment label. */
  lemma {:induction false} ProfileSumBound(labels: seq<string>)
    ensures Replay(labels).SentimentSum() <= Replay(labels).totalComments
    ensures Replay(labels).SentimentSum() == Replay(labels).totalComments
            <==> forall i :: 0 <= i < |labels| ==> labels[i] in Sentiments
  {
    ReplayCounts(labels);
    SentimentCountsBound(labels);
    if forall i :: 0 <= i < |labels| ==> labels[i] in Sentiments {
      CountAbsent(labels, TotalKey);
    }
  }

  /** After N updates none of which used the label "total_comments", the
      total is N. */
  lemma {:induction false} TotalIsUpdateCount(labels: seq<string>)
    requires forall i :: 0 <= i < |labels| ==> labels[i] != TotalKey
    ensures Replay(labels).totalComments == |labels|
  {
    ReplayCounts(labels);
    CountAbsent(labels, TotalKey);
  }

  /** Two updates for one commenter, positive then negative. */
  lemma TwoUpdatesExample()
    ensures Replay([PositiveKey, NegativeKey]) == Profile(2, 1, 1, 0)
  {
    assert [PositiveKey, NegativeKey][..1] == [PositiveKey];
    assert [PositiveKey][..0] == [];
    assert Replay([PositiveKey]) == Profile(1, 1, 0, 0);
  }

  // -----------------------------------------------------------------------
  // The table.
  // -----------------------------------------------------------------------

  /** `commenter_profiles`. `history` records, per commenter, the labels of
      every update so far; it is not part of the running program. */
  class ProfileStore {
    var profiles: map<string, Profile>
    ghost var history: map<string, seq<string>>

    /** Every stored record is the replay of its commenter's updates. */
    ghost predicate Valid()
      reads this
    {
      profiles.Keys == history.Keys &&
      forall id :: id in profiles ==> profiles[id] == Replay(history[id])
    }

    /** The labels applied so far to `id`'s record; none before first use. */
    ghost function LabelsOf(id: string): seq<string>
      reads this
    {
      if id in history then history[id] else []
    }

    /** The table at process start: empty. */
    constructor ()
      ensures Valid()
      ensures profiles == map[]
    {
      profiles := map[];
      history := map[];
    }

    /** `update_profile(commenter_id, prediction)`: creates the record if
        the id is new, applies the update to it, leaves every other record
        alone, and returns the whole updated record. */
    method UpdateProfile(commenterId: string, prediction: string) returns (profile: Profile)
      requires Valid()
      modifies this
      ensures Valid()
      ensures profiles == old(profiles)[commenterId := Apply(Lookup(old(profiles), commenterId), prediction)]
      ensures history == old(history)[commenterId := old(LabelsOf(commenterId)) + [prediction]]
      ensures profile == profiles[commenterId]
      ensures commenterId !in old(profiles) ==> profile == Apply(Fresh(), prediction)
    {
      if commenterId !in profiles {
        profiles := profiles[commenterId := Fresh()];
      }
      var current := profiles[commenterId];
      ghost var before := current;
      assert before == Lookup(old(profiles), commenterId);
      current := current.Bump(TotalKey);
      if prediction in Keys {
        current := current.Bump(prediction);
      }
      assert current == Apply(before, prediction);
      assert profiles[commenterId := current] == old(profiles)[commenterId := current];
      profiles := profiles[commenterId := current];
      ghost var labels := LabelsOf(commenterId);
      assert Lookup(old(profiles), commenterId) == Replay(labels);
      ReplayAppend(labels, prediction);
      history := history[commenterId := labels + [prediction]];
      forall id | id in profiles
        ensures profiles[id] == Replay(history[id])
      {
        if id != commenterId {
          assert profiles[id] == old(profiles)[id];
        }
      }
      profile := profiles[commenterId];
    }
  }

  /** In a consistent table, no record's sentiment counters add up to more
      than its total. */
  lemma StoredSumsBounded(store: ProfileStore, id: string)
    requires store.Valid()
    requires id in store.profiles
    ensures store.profiles[id].SentimentSum() <= store.profiles[id].totalComments
  {
    ProfileSumBound(store.history[id]);
  }
}
