/**
 * The budget rules both pages share: the preset registry, the custom-split
 * gate, the distribution of a total over needs, wants and savings, and the
 * errors the calculate button can report.
 */
module Budget {

  import opened Results
  import opened Tips

  // ---------------------------------------------------------------------
  // Percentage splits and the preset registry
  // ---------------------------------------------------------------------

  datatype Split = Split(needs: int, wants: int, savings: int) {
    function Total(): int {
      needs + wants + savings
    }
  }

  /** The `data-method` id of the custom button. */
  const CustomId := "custom"

  /**
   * `DISTRIBUTION_METHODS[id]`: the two presets, absent for any other id.
   * The entry named "70-20-10" gives wants 10 and savings 20.
   */
  function Preset(id: string): (r: Option<Split>)
    ensures r.Some? <==> id == "50-30-20" || id == "70-20-10"
    ensures r.Some? ==> r.value.Total() == 100
    ensures r.Some? ==> r.value.needs > 0 && r.value.wants > 0 && r.value.savings > 0
  {
    if id == "50-30-20" then Some(Split(50, 30, 20))
    else if id == "70-20-10" then Some(Split(70, 10, 20))
    else None
  }

  /** The registry's two entries, with the "70-20-10" wants and savings as the registry has them. */
  lemma PresetContents()
    ensures Preset("50-30-20") == Some(Split(50, 30, 20))
    ensures Preset("70-20-10") == Some(Split(70, 10, 20))
    ensures Preset(CustomId) == None
  {
  }

  /** `selectedMethod` is truthy: set, and not the empty string. */
  predicate Selected(m: Option<string>) {
    m.Some? && m.value != ""
  }

  // ---------------------------------------------------------------------
  // The custom split
  // ---------------------------------------------------------------------

  /** The `parseInt` of the three custom fields; None where it gives NaN. */
  datatype CustomFields = CustomFields(needs: Option<int>, wants: Option<int>, savings: Option<int>)

  /** The values `toggleCustomInputs(true)` writes into the custom fields. */
  const CustomDefaults := CustomFields(Some(50), Some(30), Some(20))

  /** `parseInt(...) || 0`: NaN (and 0) read as 0. */
  function OrZero(p: Option<int>): int {
    p.GetOr(0)
  }

  /** The custom split as the validation reads it. */
  function GatedSplit(f: CustomFields): Split {
    Split(OrZero(f.needs), OrZero(f.wants), OrZero(f.savings))
  }

  datatype SplitCheck = SplitCheck(valid: bool, total: int)

  /**
   * The sum check of `validateCustomPercentages` (and of the custom step of
   * `calculateBudget`): valid exactly when the three fields, unparseable
   * ones counting 0, add up to 100; no single field is bounded.
   */
  function ValidateCustomPercentages(f: CustomFields): (v: SplitCheck)
    ensures v.total == OrZero(f.needs) + OrZero(f.wants) + OrZero(f.savings)
    ensures v.valid <==> v.total == 100
  {
    var total := GatedSplit(f).Total();
    SplitCheck(total == 100, total)
  }

  /** Selecting the custom method fills in a split that passes the gate. */
  lemma CustomDefaultsPass()
    ensures ValidateCustomPercentages(CustomDefaults) == SplitCheck(true, 100)
  {
  }

  /** The gate bounds no single field: out-of-range and unparseable fields pass when the sum is 100. */
  lemma GateHasNoFieldBounds()
    ensures ValidateCustomPercentages(CustomFields(Some(150), Some(-50), None)).valid
    ensures !ValidateCustomPercentages(CustomFields(Some(50), Some(30), Some(21))).valid
  {
  }

  /**
   * The custom split as `calculateDistribution` reads it, with a bare
   * `parseInt`: no split at all (a NaN category) when any field is
   * unparseable, the gated split otherwise.
   */
  function BareCustomSplit(f: CustomFields): (r: Option<Split>)
    ensures r.Some? <==> f.needs.Some? && f.wants.Some? && f.savings.Some?
    ensures r.Some? ==> r.value == GatedSplit(f)
  {
    if f.needs.Some? && f.wants.Some? && f.savings.Some? then
      Some(Split(f.needs.value, f.wants.value, f.savings.value))
    else None
  }

  /** An empty needs field with wants 60 and savings 40 passes the gate, yet the bare read has no number for needs. */
  lemma GateAdmitsUnparsedField()
    ensures ValidateCustomPercentages(CustomFields(None, Some(60), Some(40))).valid
    ensures BareCustomSplit(CustomFields(None, Some(60), Some(40))).None?
  {
  }

  // ---------------------------------------------------------------------
  // Errors and method resolution
  // ---------------------------------------------------------------------

  /** One kind per early return of `calculateBudget`, plus the lookup failure. */
  datatype BudgetError =
    | MissingSalary       // single-earner: trimmed salary field empty
    | MissingNames        // couple: a trimmed name field empty
    | MissingIncome       // couple: combined total not positive
    | NoMethodSelected
    | InvalidCustomSplit  // custom fields do not sum to 100
    | InvalidSalary       // single-earner: parsed salary not positive
    | UnknownMethod       // `DISTRIBUTION_METHODS[id]` is undefined

  /**
   * The split the calculation uses for a selected method id: a preset, the
   * custom fields read as the gate reads them, or UnknownMethod.
   */
  function ResolveSplit(id: string, f: CustomFields): (r: Result<Split, BudgetError>)
    ensures r.Failure? <==> id != CustomId && Preset(id).None?
    ensures r.Failure? ==> r.error == UnknownMethod
    ensures id == CustomId ==> r == Success(GatedSplit(f))
    ensures r.Success? && (id == CustomId ==> ValidateCustomPercentages(f).valid) ==> r.value.Total() == 100
  {
    if id == CustomId then Success(GatedSplit(f))
    else match Preset(id)
      case Some(s) => Success(s)
      case None => Failure(UnknownMethod)
  }

  // ---------------------------------------------------------------------
  // calculateDistribution
  // ---------------------------------------------------------------------

  datatype Share = Share(percentage: int, amount: real)

  datatype Distribution = Distribution(needs: Share, wants: Share, savings: Share) {
    function Sum(): real {
      needs.amount + wants.amount + savings.amount
    }
  }

  function ShareOf(total: nat, pct: int): Share {
    Share(pct, (total as real * pct as real) / 100.0)
  }

  lemma ShareSum(total: nat, a: int, b: int, c: int)
    ensures ShareOf(total, a).amount + ShareOf(total, b).amount + ShareOf(total, c).amount
            == (total as real * (a + b + c) as real) / 100.0
  {
    var t := total as real;
    assert t * a as real + t * b as real + t * c as real == t * (a + b + c) as real;
  }

  /**
   * `calculateDistribution`: each category keeps its percentage and gets
   * that percentage of the total; the three amounts add up to the total
   * scaled by the split's sum, so to the total itself when the split sums
   * to 100.
   */
  function CalculateDistribution(total: nat, split: Split): (d: Distribution)
    ensures d.needs.percentage == split.needs && d.wants.percentage == split.wants
    ensures d.savings.percentage == split.savings
    ensures d.needs.amount * 100.0 == total as real * split.needs as real
    ensures d.wants.amount * 100.0 == total as real * split.wants as real
    ensures d.savings.amount * 100.0 == total as real * split.savings as real
    ensures d.Sum() == (total as real * split.Total() as real) / 100.0
    ensures split.Total() == 100 ==> d.Sum() == total as real
  {
    ShareSum(total, split.needs, split.wants, split.savings);
    Distribution(ShareOf(total, split.needs), ShareOf(total, split.wants), ShareOf(total, split.savings))
  }

  /**
   * Amounts follow percentages: a category never gets a negative amount for
   * a non-negative percentage, and a larger percentage never gets less.
   */
  lemma AmountsFollowPercentages(total: nat, a: int, b: int)
    ensures a >= 0 ==> ShareOf(total, a).amount >= 0.0
    ensures a <= b ==> ShareOf(total, a).amount <= ShareOf(total, b).amount
    ensures ShareOf(total, a).amount * 100.0 == total as real * a as real
  {
    var t := total as real;
    if a <= b {
      assert t * a as real <= t * b as real by {
        assert t * b as real - t * a as real == t * (b - a) as real;
      }
    }
  }

  /** Two worked budgets: 2,000,000 on 50/30/20, and 4,000,000 on the "70-20-10" preset. */
  lemma WorkedDistributions()
    ensures CalculateDistribution(2000000, Split(50, 30, 20))
            == Distribution(Share(50, 1000000.0), Share(30, 600000.0), Share(20, 400000.0))
    ensures CalculateDistribution(1500000 + 2500000, Preset("70-20-10").value)
            == Distribution(Share(70, 2800000.0), Share(10, 400000.0), Share(20, 800000.0))
  {
  }

  // ---------------------------------------------------------------------
  // What a successful calculation shows
  // ---------------------------------------------------------------------

  datatype Report = Report(distribution: Distribution, tips: seq<Tip>)
}
