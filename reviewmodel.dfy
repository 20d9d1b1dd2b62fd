/** The review collection of models/reviewModel.js: its validators, the
    unique index on (tour, user), the aggregation that recomputes a tour's
    rating fields, and the hooks that run it after a save and after a
    `findOneAnd*` query.

    Ratings are exact reals; the database computes in floating point.
    Document ids are given by the caller, as the database generates them. */
module ReviewModel {
  import opened Wrappers
  import opened ErrorController
  import UserModel

  const MinRating: real := 1.0
  const MaxRating: real := 5.0
  /** The average a tour without reviews gets. */
  const DefaultAverage: real := 4.5

  const ReviewRequired := "A review can not be empty!"
  const TourRequired := "review must belongs to a tour"
  const UserRequired := "review must belongs to a user"
  const BelowMin := " ratings must be more than 1.0 characters"
  const AboveMax := " ratingsAverage must be less than 5.0 characters"

  /** A stored review. The schema as written lets a review be stored
      without a tour or a user. */
  datatype Review = Review(id: nat, review: Option<string>, rating: Option<real>, tour: Option<nat>, user: Option<nat>)

  /** The body a review is created from; any field may be missing. */
  datatype ReviewInput = ReviewInput(review: Option<string>, rating: Option<real>, tour: Option<nat>, user: Option<nat>)

  /** A failed validator: the path and its message. */
  datatype FieldError = FieldError(path: string, message: string)

  // ---------------------------------------------------------------------
  // Validation

  /** The `min` and `max` validators of `rating`; they skip a missing value. */
  function RatingErrors(rating: Option<real>): (es: seq<FieldError>)
    ensures es == [] <==> rating.None? || MinRating <= rating.value <= MaxRating
  {
    if rating.Some? && rating.value < MinRating then [FieldError("rating", BelowMin)]
    else if rating.Some? && rating.value > MaxRating then [FieldError("rating", AboveMax)]
    else []
  }

  /** The validators the schema declares, as Mongoose reads it: the
      `require` option is not one Mongoose knows, so only the bounds of
      `rating` are checked. */
  function ValidationAsWritten(input: ReviewInput): (es: seq<FieldError>)
    ensures es == [] <==> input.rating.None? || MinRating <= input.rating.value <= MaxRating
  {
    RatingErrors(input.rating)
  }

  /** The validators the schema means: `review`, `tour` and `user` are
      required, and a rating lies within its bounds. Errors are listed in
      schema order. */
  function Validation(input: ReviewInput): (es: seq<FieldError>)
    ensures es == [] <==>
      !UserModel.Missing(input.review) && input.tour.Some? && input.user.Some?
      && (input.rating.None? || MinRating <= input.rating.value <= MaxRating)
  {
    (if UserModel.Missing(input.review) then [FieldError("review", ReviewRequired)] else [])
    + RatingErrors(input.rating)
    + (if input.tour.None? then [FieldError("tour", TourRequired)] else [])
    + (if input.user.None? then [FieldError("user", UserRequired)] else [])
  }

  /** Which schema and hooks a collection runs: the source as written, or
      as its messages show it was meant. */
  datatype Reading = AsWritten | AsIntended

  /** The validators `create` runs under a reading. */
  function CreateErrors(reading: Reading, input: ReviewInput): (es: seq<FieldError>)
    ensures reading.AsWritten? ==> es == ValidationAsWritten(input)
    ensures reading.AsIntended? ==> es == Validation(input)
  {
    if reading.AsWritten? then ValidationAsWritten(input) else Validation(input)
  }

  /** A review with no text, no tour and no user passes the schema as
      written; the intended validators reject it on all three paths. */
  lemma EmptyReviewAccepted()
    ensures ValidationAsWritten(ReviewInput(None, None, None, None)) == []
    ensures |Validation(ReviewInput(None, None, None, None))| == 3
  {
  }

  /** The error a failed validation rejects with. */
  function ValidationFailure(es: seq<FieldError>): (e: ErrorValue)
    ensures e.name == Some("ValidationError") && e.code.None?
    ensures e.errors.Some? && |e.errors.value| == |es|
    ensures forall i :: 0 <= i < |es| ==> e.errors.value[i] == Some(es[i].message)
  {
    ErrorValue(Some("ValidationError"), "Review validation failed", None, None, None, false,
               None, None, None, Some(seq(|es|, i requires 0 <= i < |es| => Some(es[i].message))))
  }

  /** The error a unique index rejects with, naming the keys of the index. */
  function DuplicateKey(keys: seq<string>): (e: ErrorValue)
    ensures IsDuplicateKey(e) && e.keyValue == Some(keys) && e.name == Some("MongoError")
  {
    ErrorValue(Some("MongoError"), "E11000 duplicate key error", Some(DuplicateCode), None, None, false,
               None, None, Some(keys), None)
  }

  /** A second review of a tour by the same user reaches a production
      client as a 400 that names the tour, the first key of the index. */
  lemma SecondReviewIs400(keys: seq<string>, app: AppErrorClass)
    requires keys == ["tour", "user"]
    ensures Classify(WithDefaults(DuplicateKey(keys)), app)
      == Success(app.New("Duplicate field value: " + keys[0] + ". Please use another value!", 400))
  {
    assert keys == [keys[0]] + keys[1..];
    DuplicateKeyIs400(WithDefaults(DuplicateKey(keys)), app, keys[0], keys[1..]);
  }

  /** A rejected review reaches a production client as a 400 listing the
      messages of its failed validators. */
  lemma InvalidReviewIs400(es: seq<FieldError>, app: AppErrorClass)
    ensures Classify(WithDefaults(ValidationFailure(es)), app)
      == Success(app.New("Invalid input data. " + JoinMessages(ValidationFailure(es).errors.value, ". "), 400))
  {
    ValidationErrorIs400(WithDefaults(ValidationFailure(es)), app, ValidationFailure(es).errors.value);
  }

  // ---------------------------------------------------------------------
  // The aggregation

  /** `$match: {tour}`: the reviews of a tour, in stored order. */
  function OfTour(reviews: seq<Review>, tour: Option<nat>): (r: seq<Review>)
    ensures |r| <= |reviews|
    ensures forall i :: 0 <= i < |r| ==> r[i] in reviews && r[i].tour == tour
    ensures forall i :: 0 <= i < |reviews| && reviews[i].tour == tour ==> reviews[i] in r
    decreases |reviews|
  {
    if reviews == [] then []
    else
      var last := reviews[|reviews| - 1];
      OfTour(reviews[..|reviews| - 1], tour) + (if last.tour == tour then [last] else [])
  }

  /** The positions of a tour's reviews in the collection. */
  function Positions(reviews: seq<Review>, tour: Option<nat>): set<int> {
    set i | 0 <= i < |reviews| && reviews[i].tour == tour
  }

  /** `$sum: 1` counts exactly the reviews of the tour. */
  lemma {:induction false} CountIsNumberOfReviews(reviews: seq<Review>, tour: Option<nat>)
    ensures |OfTour(reviews, tour)| == |Positions(reviews, tour)|
    decreases |reviews|
  {
    if reviews != [] {
      var n := |reviews| - 1;
      CountIsNumberOfReviews(reviews[..n], tour);
      PositionsStep(reviews, tour);
    }
  }

  lemma PositionsStep(reviews: seq<Review>, tour: Option<nat>)
    requires reviews != []
    ensures var n := |reviews| - 1;
      Positions(reviews, tour) == Positions(reviews[..n], tour) + (if reviews[n].tour == tour then {n} else {})
      && n !in Positions(reviews[..n], tour)
  {
  }

  /** The sum of the ratings that are present. */
  function RatingSum(rs: seq<Review>): real
    decreases |rs|
  {
    if rs == [] then 0.0
    else RatingSum(rs[..|rs| - 1]) + rs[|rs| - 1].rating.GetOr(0.0)
  }

  /** The number of ratings that are present. */
  function RatedCount(rs: seq<Review>): nat
    decreases |rs|
  {
    if rs == [] then 0
    else RatedCount(rs[..|rs| - 1]) + (if rs[|rs| - 1].rating.Some? then 1 else 0)
  }

  /** `$avg` over the present ratings, `null` when there is none. */
  function Mean(rs: seq<Review>): Option<real> {
    if RatedCount(rs) == 0 then None else Some(RatingSum(rs) / RatedCount(rs) as real)
  }

  /** One group of the aggregation. */
  datatype Stats = Stats(nRating: nat, avgRating: Option<real>)

  /** The aggregation result: one group when the tour has reviews. */
  function Aggregate(reviews: seq<Review>, tour: Option<nat>): (stats: seq<Stats>)
    ensures |stats| <= 1
    ensures |stats| == 1 <==> exists i :: 0 <= i < |reviews| && reviews[i].tour == tour
  {
    var rs := OfTour(reviews, tour);
    if rs == [] then []
    else
      assert rs[0] in reviews;
      [Stats(|rs|, Mean(rs))]
  }

  /** The two rating fields of a tour. */
  datatype RatingFields = RatingFields(quantity: nat, average: Option<real>)

  /** What `calcAverageRatings` writes into the tour. */
  function Recomputed(reviews: seq<Review>, tour: Option<nat>): RatingFields {
    var stats := Aggregate(reviews, tour);
    if |stats| > 0 then RatingFields(stats[0].nRating, stats[0].avgRating)
    else RatingFields(0, Some(DefaultAverage))
  }

  /** The quantity is the number of the tour's reviews and the average the
      mean of their ratings, or 0 and 4.5 when there is no review. */
  lemma RecomputedFields(reviews: seq<Review>, tour: Option<nat>)
    ensures Recomputed(reviews, tour).quantity == |Positions(reviews, tour)|
    ensures OfTour(reviews, tour) == [] ==> Recomputed(reviews, tour) == RatingFields(0, Some(DefaultAverage))
    ensures OfTour(reviews, tour) != [] ==> Recomputed(reviews, tour).average == Mean(OfTour(reviews, tour))
  {
    CountIsNumberOfReviews(reviews, tour);
  }

  /** A tour whose reviews are all rated gets the plain mean of them. */
  lemma MeanOfRated(reviews: seq<Review>, tour: Option<nat>)
    requires OfTour(reviews, tour) != []
    requires forall i :: 0 <= i < |reviews| && reviews[i].tour == tour ==> reviews[i].rating.Some?
    ensures Recomputed(reviews, tour).average
      == Some(RatingSum(OfTour(reviews, tour)) / |OfTour(reviews, tour)| as real)
  {
    AllRated(OfTour(reviews, tour));
  }

  lemma {:induction false} AllRated(rs: seq<Review>)
    requires forall i :: 0 <= i < |rs| ==> rs[i].rating.Some?
    ensures RatedCount(rs) == |rs|
    decreases |rs|
  {
    if rs != [] {
      AllRated(rs[..|rs| - 1]);
    }
  }

  predicate InBounds(r: Review) {
    r.rating.None? || MinRating <= r.rating.value <= MaxRating
  }

  lemma {:induction false} SumBounds(rs: seq<Review>)
    requires forall i :: 0 <= i < |rs| ==> InBounds(rs[i])
    ensures MinRating * RatedCount(rs) as real <= RatingSum(rs) <= MaxRating * RatedCount(rs) as real
    decreases |rs|
  {
    if rs != [] {
      SumBounds(rs[..|rs| - 1]);
    }
  }

  /** Ratings within the schema bounds give an average within them. */
  lemma AverageWithinBounds(reviews: seq<Review>, tour: Option<nat>)
    requires forall i :: 0 <= i < |reviews| ==> InBounds(reviews[i])
    ensures var a := Recomputed(reviews, tour).average;
      a.Some? ==> MinRating <= a.value <= MaxRating
  {
    var rs := OfTour(reviews, tour);
    assert forall i :: 0 <= i < |rs| ==> InBounds(rs[i]) by {
      forall i | 0 <= i < |rs| ensures InBounds(rs[i]) {
        assert rs[i] in reviews;
      }
    }
    SumBounds(rs);
    if RatedCount(rs) > 0 {
      MeanBound(RatingSum(rs), RatedCount(rs) as real);
    }
  }

  lemma MeanBound(sum: real, n: real)
    requires n > 0.0 && MinRating * n <= sum <= MaxRating * n
    ensures MinRating <= sum / n <= MaxRating
  {
    var m := sum / n;
    assert m * n == sum;
    assert (m - MinRating) * n == sum - MinRating * n;
    assert (MaxRating - m) * n == MaxRating * n - sum;
    FactorSign(m - MinRating, n);
    FactorSign(MaxRating - m, n);
  }

  lemma FactorSign(a: real, n: real)
    requires n > 0.0 && a * n >= 0.0
    ensures a >= 0.0
  {
  }

  /** Appending a review appends it to its own tour's reviews only. */
  lemma OfTourAppend(reviews: seq<Review>, r: Review, tour: Option<nat>)
    ensures OfTour(reviews + [r], tour) == OfTour(reviews, tour) + (if r.tour == tour then [r] else [])
  {
    assert (reviews + [r])[..|reviews|] == reviews;
  }

  lemma SumAppend(rs: seq<Review>, r: Review)
    ensures RatingSum(rs + [r]) == RatingSum(rs) + r.rating.GetOr(0.0)
    ensures RatedCount(rs + [r]) == RatedCount(rs) + (if r.rating.Some? then 1 else 0)
  {
    assert (rs + [r])[..|rs|] == rs;
  }

  /** A new rated review moves its tour's average to the mean with the new
      rating counted once more. */
  lemma AddedRatingMovesMean(reviews: seq<Review>, r: Review)
    requires r.rating.Some?
    ensures RatedCount(OfTour(reviews + [r], r.tour)) == RatedCount(OfTour(reviews, r.tour)) + 1
    ensures Mean(OfTour(reviews + [r], r.tour))
      == Some((RatingSum(OfTour(reviews, r.tour)) + r.rating.value) / (RatedCount(OfTour(reviews, r.tour)) + 1) as real)
  {
    OfTourAppend(reviews, r, r.tour);
    MeanAppend(OfTour(reviews, r.tour), r);
  }

  lemma MeanAppend(rs: seq<Review>, r: Review)
    requires r.rating.Some?
    ensures RatedCount(rs + [r]) == RatedCount(rs) + 1
    ensures Mean(rs + [r]) == Some((RatingSum(rs) + r.rating.value) / (RatedCount(rs) + 1) as real)
  {
    SumAppend(rs, r);
  }

  /** A new review leaves the statistics of every other tour alone. */
  lemma OtherToursUnaffected(reviews: seq<Review>, r: Review, tour: Option<nat>)
    requires tour != r.tour
    ensures Recomputed(reviews + [r], tour) == Recomputed(reviews, tour)
  {
    OfTourAppend(reviews, r, tour);
    assert OfTour(reviews + [r], tour) == OfTour(reviews, tour);
  }

  // ---------------------------------------------------------------------
  // The collection

  /** A tour as far as the hooks touch it. tourModel.js is not part of this
      model; its other fields are kept as they are. */
  datatype Tour = Tour(name: string, ratingsQuantity: nat, ratingsAverage: Option<real>)

  /** The changes `findByIdAndUpdate` applies: the fields given. */
  datatype ReviewPatch = ReviewPatch(review: Option<string>, rating: Option<real>, tour: Option<nat>, user: Option<nat>)

  function Apply(r: Review, p: ReviewPatch): (q: Review)
    ensures q.id == r.id
  {
    Review(r.id, if p.review.Some? then p.review else r.review,
           if p.rating.Some? then p.rating else r.rating,
           if p.tour.Some? then p.tour else r.tour, if p.user.Some? then p.user else r.user)
  }

  /** The update validators: only the paths given are checked. As
      written only the bounds of `rating` exist; as intended an empty
      review text fails `required` too. */
  function PatchErrors(reading: Reading, p: ReviewPatch): (es: seq<FieldError>)
    ensures es == [] <==>
      (reading.AsWritten? || p.review != Some("")) && (p.rating.None? || MinRating <= p.rating.value <= MaxRating)
  {
    (if reading.AsIntended? && p.review == Some("") then [FieldError("review", ReviewRequired)] else [])
    + RatingErrors(p.rating)
  }

  /** The unique index: no two reviews share a tour and a user. */
  predicate UniquePairs(reviews: seq<Review>) {
    forall i, j :: 0 <= i < j < |reviews| ==>
      reviews[i].tour != reviews[j].tour || reviews[i].user != reviews[j].user
  }

  predicate UniqueIds(reviews: seq<Review>) {
    forall i, j :: 0 <= i < j < |reviews| ==> reviews[i].id != reviews[j].id
  }

  /** Whether a review other than `except` has this tour and user. */
  /** A missing tour or user is indexed as `null`, so two reviews that
      both lack it share that key. */
  predicate PairTaken(reviews: seq<Review>, tour: Option<nat>, user: Option<nat>, except: Option<nat>) {
    exists i :: 0 <= i < |reviews| && reviews[i].tour == tour && reviews[i].user == user
      && Some(reviews[i].id) != except
  }

  /** `findById`: the position of the review with this id. */
  function Find(reviews: seq<Review>, id: nat): (r: Option<nat>)
    ensures r.Some? ==> r.value < |reviews| && reviews[r.value].id == id
    ensures r.None? ==> forall i :: 0 <= i < |reviews| ==> reviews[i].id != id
    decreases |reviews|
  {
    if reviews == [] then None
    else if reviews[|reviews| - 1].id == id then Some(|reviews| - 1)
    else Find(reviews[..|reviews| - 1], id)
  }

  /** The collection without the review at position `i`. */
  function RemoveAt(reviews: seq<Review>, i: nat): (r: seq<Review>)
    requires i < |reviews|
    ensures |r| == |reviews| - 1
    ensures forall j :: 0 <= j < i ==> r[j] == reviews[j]
    ensures forall j :: i <= j < |r| ==> r[j] == reviews[j + 1]
  {
    reviews[..i] + reviews[i + 1..]
  }

  /** The collection with the review at position `i` replaced. */
  function ReplaceAt(reviews: seq<Review>, i: nat, r: Review): (s: seq<Review>)
    requires i < |reviews|
    ensures |s| == |reviews| && s[i] == r
    ensures forall j :: 0 <= j < |s| && j != i ==> s[j] == reviews[j]
  {
    reviews[i := r]
  }

  lemma RemoveKeepsUnique(reviews: seq<Review>, i: nat)
    requires i < |reviews| && UniquePairs(reviews) && UniqueIds(reviews)
    ensures UniquePairs(RemoveAt(reviews, i)) && UniqueIds(RemoveAt(reviews, i))
  {
    var r := RemoveAt(reviews, i);
    forall a, b | 0 <= a < b < |r|
      ensures r[a].tour != r[b].tour || r[a].user != r[b].user
      ensures r[a].id != r[b].id
    {
      var a' := if a < i then a else a + 1;
      var b' := if b < i then b else b + 1;
      assert r[a] == reviews[a'] && r[b] == reviews[b'] && a' < b';
    }
  }

  /** The tours with the rating fields of one tour, if it exists, replaced
      by the recomputed ones: `Tour.findByIdAndUpdate`. A review without a
      tour names no tour to update. */
  function UpdateTour(tours: map<nat, Tour>, reviews: seq<Review>, tour: Option<nat>): (r: map<nat, Tour>)
    ensures r.Keys == tours.Keys
    ensures forall t :: t in tours && Some(t) != tour ==> r[t] == tours[t]
    ensures tour.Some? && tour.value in tours ==> r[tour.value] == tours[tour.value].(
      ratingsQuantity := Recomputed(reviews, tour).quantity,
      ratingsAverage := Recomputed(reviews, tour).average)
  {
    if tour.Some? && tour.value in tours then
      tours[tour.value := tours[tour.value].(ratingsQuantity := Recomputed(reviews, tour).quantity,
                                             ratingsAverage := Recomputed(reviews, tour).average)]
    else tours
  }

  /** What the post hook of `findOneAnd*` throws when the pre hook found
      no document: it reads `constructor` of `null`. */
  const NullHookThrow := ErrorValue(Some("TypeError"), "Cannot read property 'constructor' of null",
                                    None, None, None, false, None, None, None, None)

  /** That error is a programming error: a production API client gets a
      500 with the generic message, not the handler's 404. */
  lemma MissingReviewIs500AsWritten(url: string, app: AppErrorClass)
    requires IsApi(url)
    ensures Classify(WithDefaults(NullHookThrow), app) == Success(WithDefaults(NullHookThrow))
    ensures SendErrorProd(WithDefaults(NullHookThrow), url) == JsonResponse(500, ProdBody("error", GenericMessage))
  {
    UnmatchedErrorPassesThrough(WithDefaults(NullHookThrow), app);
  }


  class Store {
    var reviews: seq<Review>
    var tours: map<nat, Tour>

    /** The unique index holds, and every stored rating passed its bounds. */
    predicate Valid()
      reads this
    {
      UniquePairs(reviews) && UniqueIds(reviews) && forall i :: 0 <= i < |reviews| ==> InBounds(reviews[i])
    }

    constructor (tours: map<nat, Tour>)
      ensures Valid() && reviews == [] && this.tours == tours
    {
      reviews := [];
      this.tours := tours;
    }

    /** `calcAverageRatings(tour)`: count and average the tour's reviews and
        write them into the tour, or 0 and 4.5 when it has none. Only that
        tour's two rating fields change; a tour that does not exist is
        left alone. The average written lies within the rating bounds. */
    method CalcAverageRatings(tour: Option<nat>)
      modifies this
      ensures reviews == old(reviews)
      ensures tours == UpdateTour(old(tours), reviews, tour)
      ensures Valid() && tour.Some? && tour.value in tours && tours[tour.value].ratingsAverage.Some? ==>
        MinRating <= tours[tour.value].ratingsAverage.value <= MaxRating
    {
      var stats := Aggregate(reviews, tour);
      var quantity, average;
      if |stats| > 0 {
        quantity, average := stats[0].nRating, stats[0].avgRating;
      } else {
        quantity, average := 0, Some(DefaultAverage);
      }
      if tour.Some? && tour.value in tours {
        tours := tours[tour.value := tours[tour.value].(ratingsQuantity := quantity, ratingsAverage := average)];
      }
      if Valid() {
        AverageWithinBounds(reviews, tour);
      }
    }

    /** `Review.create(input)`: validation, the unique index, then the
        post-save hook recomputing the new review's tour. The id is the
        fresh one the database assigns. */
    method Create(reading: Reading, input: ReviewInput, id: nat) returns (r: Result<Review, ErrorValue>)
      requires Valid()
      requires forall i :: 0 <= i < |reviews| ==> reviews[i].id != id
      modifies this
      ensures Valid()
      ensures CreateErrors(reading, input) != [] ==>
        r == Failure(ValidationFailure(CreateErrors(reading, input))) && reviews == old(reviews) && tours == old(tours)
      ensures CreateErrors(reading, input) == [] && PairTaken(old(reviews), input.tour, input.user, None) ==>
        r == Failure(DuplicateKey(["tour", "user"])) && reviews == old(reviews) && tours == old(tours)
      ensures CreateErrors(reading, input) == [] && !PairTaken(old(reviews), input.tour, input.user, None) ==>
        var created := Review(id, input.review, input.rating, input.tour, input.user);
        && r == Success(created)
        && reviews == old(reviews) + [created]
        && tours == UpdateTour(old(tours), reviews, created.tour)
    {
      var errors := CreateErrors(reading, input);
      if errors != [] {
        return Failure(ValidationFailure(errors));
      }
      if PairTaken(reviews, input.tour, input.user, None) {
        return Failure(DuplicateKey(["tour", "user"]));
      }
      var created := Review(id, input.review, input.rating, input.tour, input.user);
      reviews := reviews + [created];
      CalcAverageRatings(created.tour);
      r := Success(created);
    }

    /** The post hook of `findOneAnd*` as written: it recomputes the tour of
        the document the pre hook fetched, and when there was none it reads
        a property of `null` and throws. */
    method PostFindOneAndAsWritten(fetched: Option<Review>) returns (thrown: Option<ErrorValue>)
      modifies this
      ensures reviews == old(reviews)
      ensures fetched.None? ==> thrown == Some(NullHookThrow) && tours == old(tours)
      ensures fetched.Some? ==> thrown.None? && tours == UpdateTour(old(tours), reviews, fetched.value.tour)
    {
      if fetched.None? {
        return Some(NullHookThrow);
      }
      CalcAverageRatings(fetched.value.tour);
      thrown := None;
    }

    /** The post hook as intended: when the query matched nothing there is
        nothing to recompute, and the handler goes on to its 404. */
    method PostFindOneAnd(fetched: Option<Review>)
      modifies this
      ensures reviews == old(reviews)
      ensures fetched.None? ==> tours == old(tours)
      ensures fetched.Some? ==> tours == UpdateTour(old(tours), reviews, fetched.value.tour)
    {
      if fetched.Some? {
        CalcAverageRatings(fetched.value.tour);
      }
    }

    /** The post hook of the reading: an error it throws rejects the query. */
    method PostFindOneAndIn(reading: Reading, fetched: Option<Review>) returns (thrown: Option<ErrorValue>)
      modifies this
      ensures reviews == old(reviews)
      ensures fetched.None? ==> tours == old(tours)
      ensures fetched.None? ==> thrown == if reading.AsWritten? then Some(NullHookThrow) else None
      ensures fetched.Some? ==> thrown.None? && tours == UpdateTour(old(tours), reviews, fetched.value.tour)
    {
      if reading.AsWritten? {
        thrown := PostFindOneAndAsWritten(fetched);
      } else {
        PostFindOneAnd(fetched);
        thrown := None;
      }
    }

    /** `findByIdAndUpdate(id, patch, {runValidators: true, new: true})`:
        the pre hook fetches the document; the update validators check the
        patch itself, before the query runs; the unique index is checked;
        and the post hook recomputes the tour of the document as it was
        before, not the tour it may have been moved to. As written, the
        post hook throws when no review has the id. */
    method FindByIdAndUpdate(reading: Reading, id: nat, patch: ReviewPatch)
      returns (r: Result<Option<Review>, ErrorValue>)
      requires Valid()
      modifies this
      ensures Valid()
      ensures PatchErrors(reading, patch) != [] ==>
        r == Failure(ValidationFailure(PatchErrors(reading, patch))) && reviews == old(reviews) && tours == old(tours)
      ensures PatchErrors(reading, patch) == [] && old(Find(reviews, id)).None? ==>
        && r == (if reading.AsWritten? then Failure(NullHookThrow) else Success(None))
        && reviews == old(reviews) && tours == old(tours)
      ensures PatchErrors(reading, patch) == [] && old(Find(reviews, id)).Some? ==>
        var i := old(Find(reviews, id)).value;
        var before := old(reviews)[i];
        var after := Apply(before, patch);
        && (PairTaken(old(reviews), after.tour, after.user, Some(id)) ==>
              r == Failure(DuplicateKey(["tour", "user"])) && reviews == old(reviews) && tours == old(tours))
        && (!PairTaken(old(reviews), after.tour, after.user, Some(id)) ==>
              && r == Success(Some(after))
              && reviews == ReplaceAt(old(reviews), i, after)
              && tours == UpdateTour(old(tours), reviews, before.tour))
    {
      var found := Find(reviews, id);
      var errors := PatchErrors(reading, patch);
      if errors != [] {
        return Failure(ValidationFailure(errors));
      }
      if found.None? {
        var thrown := PostFindOneAndIn(reading, None);
        return if thrown.Some? then Failure(thrown.value) else Success(None);
      }
      var i := found.value;
      var before := reviews[i];
      var after := Apply(before, patch);
      if PairTaken(reviews, after.tour, after.user, Some(id)) {
        return Failure(DuplicateKey(["tour", "user"]));
      }
      ReplaceKeepsUnique(reviews, i, after);
      reviews := ReplaceAt(reviews, i, after);
      var _ := PostFindOneAndIn(reading, Some(before));
      r := Success(Some(after));
    }

    /** `findByIdAndDelete(id)`: the pre hook fetches the document, it is
        removed, and the post hook recomputes its tour. As written, the
        post hook throws when no review has the id. */
    method FindByIdAndDelete(reading: Reading, id: nat) returns (r: Result<Option<Review>, ErrorValue>)
      requires Valid()
      modifies this
      ensures Valid()
      ensures old(Find(reviews, id)).None? ==>
        && r == (if reading.AsWritten? then Failure(NullHookThrow) else Success(None))
        && reviews == old(reviews) && tours == old(tours)
      ensures old(Find(reviews, id)).Some? ==>
        var i := old(Find(reviews, id)).value;
        && r == Success(Some(old(reviews)[i]))
        && reviews == RemoveAt(old(reviews), i)
        && tours == UpdateTour(old(tours), reviews, old(reviews)[i].tour)
    {
      var found := Find(reviews, id);
      if found.None? {
        var thrown := PostFindOneAndIn(reading, None);
        return if thrown.Some? then Failure(thrown.value) else Success(None);
      }
      var i := found.value;
      var before := reviews[i];
      RemoveKeepsUnique(reviews, i);
      reviews := RemoveAt(reviews, i);
      var _ := PostFindOneAndIn(reading, Some(before));
      r := Success(Some(before));
    }
  }

  lemma ReplaceKeepsUnique(reviews: seq<Review>, i: nat, r: Review)
    requires i < |reviews| && UniquePairs(reviews) && UniqueIds(reviews)
    requires r.id == reviews[i].id && !PairTaken(reviews, r.tour, r.user, Some(r.id))
    ensures UniquePairs(ReplaceAt(reviews, i, r)) && UniqueIds(ReplaceAt(reviews, i, r))
  {
    var s := ReplaceAt(reviews, i, r);
    forall a, b | 0 <= a < b < |s|
      ensures s[a].tour != s[b].tour || s[a].user != s[b].user
      ensures s[a].id != s[b].id
    {
      if a == i {
        assert s[b] == reviews[b] && reviews[b].id != r.id;
      } else if b == i {
        assert s[a] == reviews[a] && reviews[a].id != r.id;
      }
    }
  }

  /** Every tour's rating fields are those its reviews give. */
  predicate Consistent(reviews: seq<Review>, tours: map<nat, Tour>) {
    forall t :: t in tours ==>
      tours[t].ratingsQuantity == Recomputed(reviews, Some(t)).quantity
      && tours[t].ratingsAverage == Recomputed(reviews, Some(t)).average
  }

  /** `Store.Create` of a review with a fresh id followed by
      `Store.FindByIdAndDelete` of that id, composed from their
      postconditions: the delete finds the review last, removes exactly
      it, and recomputes its tour from the original reviews. The
      collection comes back as it was, and the tours come back too when
      their fields were up to date before. */
  lemma CreateThenDeleteRestores(reviews: seq<Review>, tours: map<nat, Tour>, created: Review)
    requires forall i :: 0 <= i < |reviews| ==> reviews[i].id != created.id
    ensures var added := reviews + [created];
      && Find(added, created.id) == Some(|reviews|)
      && added[|reviews|] == created
      && RemoveAt(added, |reviews|) == reviews
      && UpdateTour(UpdateTour(tours, added, created.tour), reviews, created.tour)
           == UpdateTour(tours, reviews, created.tour)
    ensures Consistent(reviews, tours) ==> UpdateTour(tours, reviews, created.tour) == tours
  {
    var added := reviews + [created];
    assert RemoveAt(added, |reviews|) == reviews;
    UpdateTourTwice(tours, added, reviews, created.tour);
    if Consistent(reviews, tours) {
      UpdateTourConsistent(reviews, tours, created.tour);
    }
  }

  /** A second recompute of the same tour overwrites the first. */
  lemma UpdateTourTwice(tours: map<nat, Tour>, first: seq<Review>, second: seq<Review>, tour: Option<nat>)
    ensures UpdateTour(UpdateTour(tours, first, tour), second, tour) == UpdateTour(tours, second, tour)
  {
  }

  /** Recomputing a tour whose fields are up to date changes nothing. */
  lemma UpdateTourConsistent(reviews: seq<Review>, tours: map<nat, Tour>, tour: Option<nat>)
    requires Consistent(reviews, tours)
    ensures UpdateTour(tours, reviews, tour) == tours
  {
    if tour.Some? && tour.value in tours {
      var t := tour.value;
      assert tours[t].(ratingsQuantity := Recomputed(reviews, tour).quantity,
                       ratingsAverage := Recomputed(reviews, tour).average) == tours[t];
    }
  }
}
