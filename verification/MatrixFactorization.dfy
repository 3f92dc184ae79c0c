/** The standalone model of internal/usecase/recommendation/matrix_factorization.go: vectors created on demand. */
module MatrixFactorization {
  import opened Wrappers
  import opened Factorization
  import opened Trainer

  /** Every row of `before` is kept. */
  predicate Grows(before: Table, after: Table) {
    forall id :: id in before ==> id in after && after[id] == before[id]
  }

  class Model {
    const k: nat
    const gamma: real
    const lambda: real
    var users: Table
    var videos: Table

    /** Every vector is an array of its own, with `k` entries. */
    ghost predicate Valid()
      reads this
    {
      Separate(users, videos, k)
    }

    constructor (k: nat, gamma: real, lambda: real)
      ensures Valid() && this.k == k && this.gamma == gamma && this.lambda == lambda
      ensures users == map[] && videos == map[]
    {
      this.k, this.gamma, this.lambda := k, gamma, lambda;
      users, videos := map[], map[];
    }

    /** No clamp here: the error is used as it is. */
    function TrainingRates(): Rates {
      Rates(gamma, lambda, None)
    }

    method InitVector(draw: nat -> real) returns (vec: array<real>)
      requires forall i :: 0.0 <= draw(i) < 1.0
      ensures fresh(vec) && vec.Length == k && VecWithin(vec[..], 0.1)
      ensures forall i :: 0 <= i < k ==> vec[i] == draw(i) * 0.1
    {
      vec := new real[k];
      for i := 0 to k
        modifies vec
        invariant forall j :: 0 <= j < i ==> vec[j] == draw(j) * 0.1 && Abs(vec[j]) <= 0.1
      {
        vec[i] := draw(i) * 0.1;
      }
    }

    /** `Predict`: 0 for an unseen user or video. */
    method Predict(user: string, video: string) returns (score: real)
      requires Valid()
      ensures user in users && video in videos ==> score == Dot(users[user][..], videos[video][..])
      ensures user !in users || video !in videos ==> score == 0.0
    {
      if user !in users || video !in videos {
        return 0.0;
      }
      score := DotRows(users[user], videos[video]);
    }

    method EnsureUser(id: string, draw: nat -> real)
      requires Valid()
      requires forall i :: 0.0 <= draw(i) < 1.0
      modifies `users
      ensures Valid() && users.Keys == old(users.Keys) + {id}
      ensures forall x :: x in old(users) ==> users[x] == old(users)[x]
      ensures id !in old(users) ==> fresh(users[id]) && VecWithin(users[id][..], 0.1)
    {
      if id !in users {
        var vec := InitVector(draw);
        users := users[id := vec];
      }
    }

    method EnsureVideo(id: string, draw: nat -> real)
      requires Valid()
      requires forall i :: 0.0 <= draw(i) < 1.0
      modifies `videos
      ensures Valid() && videos.Keys == old(videos.Keys) + {id}
      ensures forall x :: x in old(videos) ==> videos[x] == old(videos)[x]
      ensures id !in old(videos) ==> fresh(videos[id]) && VecWithin(videos[id][..], 0.1)
    {
      if id !in videos {
        var vec := InitVector(draw);
        videos := videos[id := vec];
      }
    }

    /** One turn of the loop that creates missing vectors. */
    method EnsureBoth(x: Interaction, draw: nat -> real)
      requires Valid()
      requires forall i :: 0.0 <= draw(i) < 1.0
      modifies this
      ensures Valid()
      ensures users.Keys == old(users.Keys) + {x.user} && videos.Keys == old(videos.Keys) + {x.video}
      ensures Grows(old(users), users) && Grows(old(videos), videos)
      ensures x.user !in old(users) ==> fresh(users[x.user]) && VecWithin(users[x.user][..], 0.1)
      ensures x.video !in old(videos) ==> fresh(videos[x.video]) && VecWithin(videos[x.video][..], 0.1)
    {
      hide VecWithin, Separate;
      EnsureUser(x.user, draw);
      EnsureVideo(x.video, draw);
    }

    /** Add a small fresh vector for every id that has none; known vectors are kept as they are. */
    method EnsureVectors(xs: seq<Interaction>, draw: nat -> real)
      requires Valid()
      requires forall i :: 0.0 <= draw(i) < 1.0
      modifies this
      ensures Valid()
      ensures users.Keys == old(users.Keys) + Users(xs) && videos.Keys == old(videos.Keys) + Videos(xs)
      ensures forall id :: id in old(users) ==> users[id] == old(users)[id]
      ensures forall id :: id in old(videos) ==> videos[id] == old(videos)[id]
      ensures forall id :: id in users && id !in old(users) ==> fresh(users[id]) && VecWithin(users[id][..], 0.1)
      ensures forall id :: id in videos && id !in old(videos) ==> fresh(videos[id]) && VecWithin(videos[id][..], 0.1)
    {
      hide VecWithin, Separate;
      assert xs[..0] == [];
      for n := 0 to |xs|
        invariant Valid()
        invariant users.Keys == old(users.Keys) + Users(xs[..n]) && videos.Keys == old(videos.Keys) + Videos(xs[..n])
        invariant forall id :: id in old(users) ==> users[id] == old(users)[id]
        invariant forall id :: id in old(videos) ==> videos[id] == old(videos)[id]
        invariant forall id :: id in users && id !in old(users) ==> fresh(users[id]) && VecWithin(users[id][..], 0.1)
        invariant forall id :: id in videos && id !in old(videos) ==>
          fresh(videos[id]) && VecWithin(videos[id][..], 0.1)
      {
        assert xs[..n + 1][..n] == xs[..n];
        EnsureBoth(xs[n], draw);
      }
      assert xs[..|xs|] == xs;
    }

    /**
     * `Train`: the vectors after it are those of id-keyed gradient descent, started from the vectors the model had
     * before and small values for the ids it had not seen.
     */
    method Train(xs: seq<Interaction>, epochs: nat, draw: nat -> real) returns (ghost start: Factors)
      requires Valid()
      requires forall i :: 0.0 <= draw(i) < 1.0
      modifies this, users.Values, videos.Values
      ensures Valid() && Shaped(start, k) && Covers(start, xs)
      ensures users.Keys == old(users.Keys) + Users(xs) && videos.Keys == old(videos.Keys) + Videos(xs)
      ensures forall id :: id in start.users ==>
        if id in old(users) then start.users[id] == old(users[id][..]) else VecWithin(start.users[id], 0.1)
      ensures forall id :: id in start.videos ==>
        if id in old(videos) then start.videos[id] == old(videos[id][..]) else VecWithin(start.videos[id], 0.1)
      ensures Contents(users, videos) == Epochs(start, k, xs, TrainingRates(), epochs)
    {
      hide VecWithin;
      EnsureVectors(xs, draw);
      InteractionIds(xs);
      start := Contents(users, videos);
      hide Separate;
      TrainRows(users, videos, k, xs, TrainingRates(), epochs);
    }
  }
}
