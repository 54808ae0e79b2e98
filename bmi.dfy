/** The BMI service: the category thresholds, the validation and arithmetic
    of the two calculation routes, and the in-memory calculation history.
    Arithmetic is over `real`: float64 rounding, NaN and infinities are not
    part of this model. */
module BmiService {
  import opened Environment
  import opened Options

  const Underweight := "Underweight"
  const NormalWeight := "Normal weight"
  const Overweight := "Overweight"
  const Obese := "Obese"

  /** `getBMICategory`. */
  function BmiCategory(bmi: real): (category: string)
    ensures category == Underweight <==> bmi < 18.5
    ensures category == NormalWeight <==> 18.5 <= bmi < 25.0
    ensures category == Overweight <==> 25.0 <= bmi < 30.0
    ensures category == Obese <==> 30.0 <= bmi
  {
    if bmi < 18.5 then Underweight
    else if bmi < 25.0 then NormalWeight
    else if bmi < 30.0 then Overweight
    else Obese
  }

  /** Position of a category in Underweight < Normal weight < Overweight < Obese. */
  function CategoryRank(category: string): nat {
    if category == Underweight then 0
    else if category == NormalWeight then 1
    else if category == Overweight then 2
    else 3
  }

  /** A larger BMI never falls into an earlier category. */
  lemma CategoryMonotone(a: real, b: real)
    requires a <= b
    ensures CategoryRank(BmiCategory(a)) <= CategoryRank(BmiCategory(b))
  {
  }

  /** weight / (height * height). */
  function Bmi(weight: real, height: real): (bmi: real)
    requires height > 0.0
    ensures bmi * (height * height) == weight
    ensures weight > 0.0 ==> bmi > 0.0
  {
    weight / (height * height)
  }

  datatype Calculation = Calculation(weight: real, height: real, bmi: real, category: string, timestamp: string)

  /** The outcome of a calculation request: a 400 with its message, or the
      record that was stored. */
  datatype Outcome = BadRequest(message: string) | Calculated(calculation: Calculation)

  const NotPositive := "weight and height must be positive numbers"

  /** The part both calculation routes share: the positivity check, then the
      record to store. */
  function Evaluate(weight: real, height: real, now: string): (r: Outcome)
    ensures r.BadRequest? <==> weight <= 0.0 || height <= 0.0
    ensures r.BadRequest? ==> r.message == NotPositive
    ensures r.Calculated? ==>
      && r.calculation.weight == weight
      && r.calculation.height == height
      && r.calculation.bmi * (height * height) == weight
      && r.calculation.category == BmiCategory(r.calculation.bmi)
      && r.calculation.timestamp == now
  {
    if weight <= 0.0 || height <= 0.0 then BadRequest(NotPositive)
    else
      var bmi := Bmi(weight, height);
      Calculated(Calculation(weight, height, bmi, BmiCategory(bmi), now))
  }

  /** A JSON body as the decoder hands it over: the two fields (absent ones
      are 0), or the decoder's error message. */
  datatype Body = Decoded(weight: real, height: real) | Malformed(error: string)

  /** The `/history` reply. */
  datatype History = History(calculations: seq<Calculation>, count: nat)

  /** The process-wide history of successful calculations. */
  class Service {
    var calculations: seq<Calculation>

    ghost predicate Valid()
      reads this
    {
      WellFormed(calculations)
    }

    constructor ()
      ensures Valid() && calculations == []
    {
      calculations := [];
    }

    /** The tail both calculation routes share: validate, compute, and
        append the record on success. */
    method Accept(weight: real, height: real, now: string) returns (r: Outcome)
      requires Valid()
      modifies this
      ensures Valid()
      ensures r == Evaluate(weight, height, now)
      ensures r.Calculated? ==> calculations == old(calculations) + [r.calculation]
      ensures r.BadRequest? ==> calculations == old(calculations)
    {
      StoreKeepsWellFormed(calculations, weight, height, now);
      r := Evaluate(weight, height, now);
      if r.Calculated? {
        calculations := calculations + [r.calculation];
      }
    }

    /** `calculateHandler` (POST /calculate). */
    method Calculate(body: Body, now: string) returns (r: Outcome)
      requires Valid()
      modifies this
      ensures Valid()
      ensures body.Malformed? ==> r == BadRequest(body.error)
      ensures body.Decoded? ==> r == Evaluate(body.weight, body.height, now)
      ensures r.Calculated? ==> calculations == old(calculations) + [r.calculation]
      ensures r.BadRequest? ==> calculations == old(calculations)
    {
      if body.Malformed? {
        return BadRequest(body.error);
      }
      r := Accept(body.weight, body.height, now);
    }

    /** `quickCalculateHandler` (GET /bmi/{weight}/{height}): each path
        parameter arrives as what `strconv.ParseFloat` made of it, `None`
        when it did not parse; the weight is looked at first. */
    method QuickCalculate(weight: Option<real>, height: Option<real>, now: string) returns (r: Outcome)
      requires Valid()
      modifies this
      ensures Valid()
      ensures weight.None? ==> r == BadRequest("invalid weight parameter")
      ensures weight.Some? && height.None? ==> r == BadRequest("invalid height parameter")
      ensures weight.Some? && height.Some? ==> r == Evaluate(weight.value, height.value, now)
      ensures r.Calculated? ==> calculations == old(calculations) + [r.calculation]
      ensures r.BadRequest? ==> calculations == old(calculations)
    {
      if weight.None? {
        return BadRequest("invalid weight parameter");
      }
      if height.None? {
        return BadRequest("invalid height parameter");
      }
      r := Accept(weight.value, height.value, now);
    }

    /** `historyHandler`: the stored list and how many entries it has. */
    method GetHistory() returns (h: History)
      requires Valid()
      ensures WellFormed(h.calculations)
      ensures h.calculations == calculations
      ensures h.count == |h.calculations|
    {
      h := History(calculations, |calculations|);
    }
  }

  /** Every record the history ever holds passed validation and is consistent:
      its BMI is its weight over its height squared and its category is that
      BMI's category. */
  ghost predicate WellFormed(history: seq<Calculation>) {
    forall i :: 0 <= i < |history| ==>
      && history[i].weight > 0.0
      && history[i].height > 0.0
      && history[i].bmi == Bmi(history[i].weight, history[i].height)
      && history[i].category == BmiCategory(history[i].bmi)
  }

  /** Appending what `Evaluate` produced keeps the history well formed. */
  lemma StoreKeepsWellFormed(history: seq<Calculation>, weight: real, height: real, now: string)
    requires WellFormed(history)
    ensures var r := Evaluate(weight, height, now);
      WellFormed(if r.Calculated? then history + [r.calculation] else history)
  {
    var r := Evaluate(weight, height, now);
    if r.Calculated? {
      var h := history + [r.calculation];
      forall i | 0 <= i < |h|
        ensures h[i].bmi == Bmi(h[i].weight, h[i].height)
      {
        if i == |history| {
          assert h[i] == r.calculation;
        } else {
          assert h[i] == history[i];
        }
      }
    }
  }

  /** `PORT` with the service's default. */
  function ListenPort(env: map<string, string>): (port: string)
    ensures Lookup(env, "PORT") != "" ==> port == env["PORT"]
    ensures Lookup(env, "PORT") == "" ==> port == "8081"
  {
    GetEnv(env, "PORT", "8081")
  }
}
