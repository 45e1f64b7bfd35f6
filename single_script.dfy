/**
 * The single-earner page: the module-level `selectedMethod` and
 * `salaryAmount`, together with the form fields its handlers read and
 * write (the salary field and the three custom percentage fields).
 */
module SingleScript {

  import opened Results
  import opened Amounts
  import opened Tips
  import opened Budget

  /** How many tips a successful calculation shows. */
  const TipCount: nat := 4

  class SingleSession {
    var selectedMethod: Option<string>
    var salaryAmount: nat
    /** The text of the salary field. */
    var salaryField: string
    /** The three custom percentage fields, as `parseInt` reads them. */
    var custom: CustomFields

    /** A fresh page; the custom fields start with whatever the page markup holds. */
    constructor (initialCustom: CustomFields)
      ensures selectedMethod == None && salaryAmount == 0
      ensures salaryField == "" && custom == initialCustom
    {
      selectedMethod := None;
      salaryAmount := 0;
      salaryField := "";
      custom := initialCustom;
    }

    /** The salary field's `input` handler: the field keeps the sanitised text, whose amount is the typed one. */
    method OnSalaryInput(raw: string)
      modifies this`salaryField
      ensures salaryField == SanitizeSalary(raw)
      ensures IsSanitized(salaryField)
      ensures ParseInputValue(salaryField) == ParseInputValue(raw)
    {
      salaryField := SanitizeSalary(raw);
    }

    /** The salary field's `paste` handler: a paste with digits replaces the field by their amount; one without is ignored. */
    method OnSalaryPaste(text: string)
      modifies this`salaryField
      ensures PastedAmount(text).None? ==> salaryField == old(salaryField)
      ensures PastedAmount(text).Some? ==> salaryField == DecimalString(PastedAmount(text).value)
      ensures PastedAmount(text).Some? ==> ParseInputValue(salaryField) == ParseInputValue(text)
    {
      match PastedAmount(text)
      case Some(n) =>
        salaryField := DecimalString(n);
        ParseDecimalString(n);
      case None =>
    }

    /** `selectDistributionMethod`: records the id; the custom id also resets the custom fields to a valid 50/30/20. */
    method SelectDistributionMethod(id: string)
      modifies this`selectedMethod, this`custom
      ensures selectedMethod == Some(id)
      ensures custom == if id == CustomId then CustomDefaults else old(custom)
      ensures id == CustomId ==> ValidateCustomPercentages(custom).valid
    {
      selectedMethod := Some(id);
      if id == CustomId {
        custom := CustomDefaults;
      }
    }

    /** The custom fields' `input` handler: new field values and the validation they get. */
    method EnterCustomPercentages(f: CustomFields) returns (check: SplitCheck)
      modifies this`custom
      ensures custom == f && check == ValidateCustomPercentages(f)
    {
      custom := f;
      check := ValidateCustomPercentages(f);
    }

    /** The first three checks of `calculateBudget`, the ones made before `salaryAmount` is assigned. */
    ghost predicate PassesFormChecks()
      reads this
    {
      && !IsBlank(salaryField)
      && Selected(selectedMethod)
      && (selectedMethod.value == CustomId ==> ValidateCustomPercentages(custom).valid)
    }

    /**
     * `calculateBudget`: the salary field must be non-blank, a method
     * selected, a custom split valid; only then is `salaryAmount` assigned
     * the parsed field, which must be positive. The first failed check is
     * the one error reported, and when every check passes the calculation
     * succeeds; success shows the distribution of
     * `salaryAmount`, which adds up to it, and four distinct tips.
     */
    method CalculateBudget(perm: seq<nat>) returns (r: Result<Report, BudgetError>)
      requires IsPermutation(perm, |IndividualTips|)
      modifies this`salaryAmount
      ensures IsBlank(salaryField) ==> r == Failure(MissingSalary)
      ensures !IsBlank(salaryField) && !Selected(selectedMethod) ==> r == Failure(NoMethodSelected)
      ensures (!IsBlank(salaryField) && Selected(selectedMethod) && selectedMethod.value == CustomId
               && !ValidateCustomPercentages(custom).valid) ==> r == Failure(InvalidCustomSplit)
      ensures !PassesFormChecks() ==> salaryAmount == old(salaryAmount) && r.Failure?
      ensures PassesFormChecks() ==> salaryAmount == ParseInputValue(salaryField)
      ensures PassesFormChecks() && salaryAmount == 0 ==> r == Failure(InvalidSalary)
      ensures (PassesFormChecks() && salaryAmount > 0 && ResolveSplit(selectedMethod.value, custom).Failure?)
              ==> r == Failure(UnknownMethod)
      ensures r.Success? <==>
                PassesFormChecks() && salaryAmount > 0 && ResolveSplit(selectedMethod.value, custom).Success?
      ensures r.Success? ==>
                && r.value.distribution == CalculateDistribution(salaryAmount, ResolveSplit(selectedMethod.value, custom).value)
                && r.value.distribution.Sum() == salaryAmount as real
                && r.value.tips == GetRandomTips(IndividualTips, perm, TipCount)
                && |r.value.tips| == TipCount && Distinct(r.value.tips)
    {
      if IsBlank(salaryField) {
        return Failure(MissingSalary);
      }
      if !Selected(selectedMethod) {
        return Failure(NoMethodSelected);
      }
      var id := selectedMethod.value;
      if id == CustomId {
        var check := ValidateCustomPercentages(custom);
        if !check.valid {
          return Failure(InvalidCustomSplit);
        }
      }
      salaryAmount := ParseInputValue(salaryField);
      if salaryAmount == 0 {
        return Failure(InvalidSalary);
      }
      var split := ResolveSplit(id, custom);
      if split.Failure? {
        return Failure(UnknownMethod);
      }
      var distribution := CalculateDistribution(salaryAmount, split.value);
      IndividualSample(perm);
      r := Success(Report(distribution, GetRandomTips(IndividualTips, perm, TipCount)));
    }

    /** `resetApplication`: clears the salary field and the selection; `salaryAmount` and the custom fields stay. */
    method ResetApplication()
      modifies this`salaryField, this`selectedMethod
      ensures salaryField == "" && selectedMethod == None
      ensures salaryAmount == old(salaryAmount) && custom == old(custom)
    {
      salaryField := "";
      selectedMethod := None;
    }
  }
}
