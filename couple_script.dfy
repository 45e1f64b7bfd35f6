/**
 * The couple page: the module-level `selectedMethod`,
 * `totalCombinedSalary`, `person1Data` and `person2Data`, together with the
 * form fields its handlers read and write (two names, two salaries, the
 * three custom percentage fields).
 */
module CoupleScript {

  import opened Results
  import opened Amounts
  import opened Tips
  import opened Budget

  /** How many tips a successful calculation shows. */
  const TipCount: nat := 6

  /** The labels `updatePersonLabels` falls back on for an empty name field. */
  const DefaultName1 := "Persona 1"
  const DefaultName2 := "Persona 2"

  /** `person1Data` / `person2Data`. */
  datatype Person = Person(name: string, salary: nat)

  /** Which of the two earners a field belongs to. */
  datatype Earner = First | Second

  /** `field || fallback`: an empty field gives the fallback, any other text (blank included) itself. */
  function LabelName(field: string, fallback: string): (name: string)
    ensures field == "" ==> name == fallback
    ensures field != "" ==> name == field
  {
    if field == "" then fallback else field
  }

  class CoupleSession {
    var selectedMethod: Option<string>
    var totalCombinedSalary: nat
    var person1: Person
    var person2: Person
    var name1Field: string
    var name2Field: string
    var salary1Field: string
    var salary2Field: string
    /** The three custom percentage fields, as `parseInt` reads them. */
    var custom: CustomFields

    /**
     * Every handler keeps each person's salary equal to the amount in their
     * field and the combined total equal to the sum of the two.
     */
    ghost predicate Valid()
      reads this
    {
      && person1.salary == ParseInputValue(salary1Field)
      && person2.salary == ParseInputValue(salary2Field)
      && totalCombinedSalary == person1.salary + person2.salary
    }

    /** A fresh page; the custom fields start with whatever the page markup holds. */
    constructor (initialCustom: CustomFields)
      ensures Valid()
      ensures selectedMethod == None && totalCombinedSalary == 0
      ensures person1 == Person("", 0) && person2 == Person("", 0)
      ensures name1Field == "" && name2Field == "" && salary1Field == "" && salary2Field == ""
      ensures custom == initialCustom
    {
      selectedMethod := None;
      totalCombinedSalary := 0;
      person1 := Person("", 0);
      person2 := Person("", 0);
      name1Field, name2Field := "", "";
      salary1Field, salary2Field := "", "";
      custom := initialCustom;
    }

    /**
     * `updateCombinedTotal`: each person's salary becomes the amount in
     * their field and the total their sum; names are untouched.
     */
    method UpdateCombinedTotal()
      modifies this`person1, this`person2, this`totalCombinedSalary
      ensures Valid()
      ensures person1 == old(person1).(salary := ParseInputValue(salary1Field))
      ensures person2 == old(person2).(salary := ParseInputValue(salary2Field))
      ensures totalCombinedSalary == ParseInputValue(salary1Field) + ParseInputValue(salary2Field)
    {
      var salary1 := ParseInputValue(salary1Field);
      var salary2 := ParseInputValue(salary2Field);
      totalCombinedSalary := salary1 + salary2;
      person1 := person1.(salary := salary1);
      person2 := person2.(salary := salary2);
    }

    /** `updatePersonLabels`: each name becomes its field, or the default label when the field is empty. */
    method UpdatePersonLabels()
      modifies this`person1, this`person2
      ensures person1 == old(person1).(name := LabelName(name1Field, DefaultName1))
      ensures person2 == old(person2).(name := LabelName(name2Field, DefaultName2))
    {
      person1 := person1.(name := LabelName(name1Field, DefaultName1));
      person2 := person2.(name := LabelName(name2Field, DefaultName2));
    }

    /**
     * A salary field's `input` handler: the field keeps the sanitised text
     * and the totals are recomputed, so the combined total is the sum of the
     * typed amount and the other field's amount.
     */
    method OnSalaryInput(who: Earner, raw: string)
      requires Valid()
      modifies this`salary1Field, this`salary2Field, this`person1, this`person2, this`totalCombinedSalary
      ensures Valid()
      ensures who == First ==> salary1Field == SanitizeSalary(raw) && salary2Field == old(salary2Field)
      ensures who == Second ==> salary2Field == SanitizeSalary(raw) && salary1Field == old(salary1Field)
      ensures totalCombinedSalary == ParseInputValue(raw)
                + ParseInputValue(if who == First then salary2Field else salary1Field)
      ensures person1.name == old(person1.name) && person2.name == old(person2.name)
    {
      if who == First {
        salary1Field := SanitizeSalary(raw);
      } else {
        salary2Field := SanitizeSalary(raw);
      }
      UpdateCombinedTotal();
    }

    /**
     * A salary field's `paste` handler: a paste with digits writes their
     * amount into the field and recomputes the totals; one without digits
     * changes nothing.
     */
    method OnSalaryPaste(who: Earner, text: string)
      requires Valid()
      modifies this`salary1Field, this`salary2Field, this`person1, this`person2, this`totalCombinedSalary
      ensures Valid()
      ensures PastedAmount(text).None? ==>
                && salary1Field == old(salary1Field) && salary2Field == old(salary2Field)
                && person1 == old(person1) && person2 == old(person2)
                && totalCombinedSalary == old(totalCombinedSalary)
      ensures PastedAmount(text).Some? && who == First ==>
                && salary1Field == DecimalString(PastedAmount(text).value) && salary2Field == old(salary2Field)
                && person1.salary == PastedAmount(text).value && person2 == old(person2)
      ensures PastedAmount(text).Some? && who == Second ==>
                && salary2Field == DecimalString(PastedAmount(text).value) && salary1Field == old(salary1Field)
                && person2.salary == PastedAmount(text).value && person1 == old(person1)
      ensures person1.name == old(person1.name) && person2.name == old(person2.name)
    {
      match PastedAmount(text)
      case Some(n) =>
        ParseDecimalString(n);
        if who == First {
          salary1Field := DecimalString(n);
        } else {
          salary2Field := DecimalString(n);
        }
        UpdateCombinedTotal();
      case None =>
    }

    /** A name field's `input` handler: the field changes and the labels follow it. */
    method OnNameInput(who: Earner, raw: string)
      modifies this`name1Field, this`name2Field, this`person1, this`person2
      ensures who == First ==> name1Field == raw && name2Field == old(name2Field)
      ensures who == Second ==> name2Field == raw && name1Field == old(name1Field)
      ensures person1 == old(person1).(name := LabelName(name1Field, DefaultName1))
      ensures person2 == old(person2).(name := LabelName(name2Field, DefaultName2))
    {
      if who == First {
        name1Field := raw;
      } else {
        name2Field := raw;
      }
      UpdatePersonLabels();
    }

    /** `selectDistributionMethod`: records the id; the custom id also resets the custom fields to a valid 50/30/20. */
    method SelectDistributionMethod(id: string)
      modifies this`selectedMethod, this`custom
      ensures selectedMethod == Some(id)
      ensures custom == if id == CustomId then CustomDefaults else old(custom)
      ensures id == CustomId ==> ValidateCustomPercentages(custom).valid
    {
      selectedMethod := Some(id);
      if id == CustomId {
        custom := CustomDefaults;
      }
    }

    /** The custom fields' `input` handler: new field values and the validation they get. */
    method EnterCustomPercentages(f: CustomFields) returns (check: SplitCheck)
      modifies this`custom
      ensures custom == f && check == ValidateCustomPercentages(f)
    {
      custom := f;
      check := ValidateCustomPercentages(f);
    }

    /** The four checks of `calculateBudget`, in the order it makes them. */
    predicate NamesGiven()
      reads this
    {
      !IsBlank(name1Field) && !IsBlank(name2Field)
    }

    predicate PassesChecks()
      reads this
    {
      && NamesGiven()
      && totalCombinedSalary > 0
      && Selected(selectedMethod)
      && (selectedMethod.value == CustomId ==> ValidateCustomPercentages(custom).valid)
    }

    /**
     * `calculateBudget`: both trimmed names non-empty, a positive combined
     * total, a selected method, and for the custom method a split summing
     * to 100, checked in that order; the first failure is the one error
     * reported, and when every check passes the calculation succeeds.
     * Success shows the distribution of the combined total, which
     * adds up to it, and six distinct tips. Nothing is changed.
     */
    method CalculateBudget(perm: seq<nat>) returns (r: Result<Report, BudgetError>)
      requires IsPermutation(perm, |CoupleTips|)
      ensures !NamesGiven() ==> r == Failure(MissingNames)
      ensures NamesGiven() && totalCombinedSalary == 0 ==> r == Failure(MissingIncome)
      ensures (NamesGiven() && totalCombinedSalary > 0 && !Selected(selectedMethod))
              ==> r == Failure(NoMethodSelected)
      ensures (NamesGiven() && totalCombinedSalary > 0 && Selected(selectedMethod)
               && selectedMethod.value == CustomId && !ValidateCustomPercentages(custom).valid)
              ==> r == Failure(InvalidCustomSplit)
      ensures (PassesChecks() && ResolveSplit(selectedMethod.value, custom).Failure?)
              ==> r == Failure(UnknownMethod)
      ensures r.Success? <==> PassesChecks() && ResolveSplit(selectedMethod.value, custom).Success?
      ensures r.Success? ==>
                && r.value.distribution
                   == CalculateDistribution(totalCombinedSalary, ResolveSplit(selectedMethod.value, custom).value)
                && r.value.distribution.Sum() == totalCombinedSalary as real
                && r.value.tips == GetRandomTips(CoupleTips, perm, TipCount)
                && |r.value.tips| == TipCount && Distinct(r.value.tips)
    {
      if IsBlank(name1Field) || IsBlank(name2Field) {
        return Failure(MissingNames);
      }
      if totalCombinedSalary <= 0 {
        return Failure(MissingIncome);
      }
      if !Selected(selectedMethod) {
        return Failure(NoMethodSelected);
      }
      var id := selectedMethod.value;
      if id == CustomId {
        var check := ValidateCustomPercentages(custom);
        if !check.valid {
          return Failure(InvalidCustomSplit);
        }
      }
      var split := ResolveSplit(id, custom);
      if split.Failure? {
        return Failure(UnknownMethod);
      }
      var distribution := CalculateDistribution(totalCombinedSalary, split.value);
      CoupleSample(perm);
      r := Success(Report(distribution, GetRandomTips(CoupleTips, perm, TipCount)));
    }

    /**
     * `resetApplication`: empties the four fields, zeroes both salaries and
     * the total, clears the selection, then relabels from the now-empty name
     * fields, so the names end as the default labels. The custom fields keep
     * their values.
     */
    method ResetApplication()
      modifies this
      ensures Valid()
      ensures name1Field == "" && name2Field == "" && salary1Field == "" && salary2Field == ""
      ensures person1 == Person(DefaultName1, 0) && person2 == Person(DefaultName2, 0)
      ensures totalCombinedSalary == 0 && selectedMethod == None
      ensures custom == old(custom)
    {
      name1Field, name2Field := "", "";
      salary1Field, salary2Field := "", "";
      person1 := Person("", 0);
      person2 := Person("", 0);
      totalCombinedSalary := 0;
      selectedMethod := None;
      UpdatePersonLabels();
    }
  }
}
