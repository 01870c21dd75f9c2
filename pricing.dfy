/** The Pricing admin page: the car selection filter, the save-time
    validation and payload, the Edit prefill, the per-type counts, the car
    label, and the editor dialog. */
module Pricing {
  import opened Common
  import Rows

  /** `carName` is `Rows.CarLabel(cars, Some(id), NoCarName)`: the car's name, or
      this text for a missing car or an empty name. */
  const NoCarName := "Unknown Vehicle"

  /** A row of the `pricing_rules` collection. */
  datatype PricingRule = PricingRule(
    id: string, carId: string, pricingType: string, amount: int,
    location: Option<string>, notes: Option<string>)

  datatype Form = Form(carId: string, pricingType: string, amount: int, location: string, notes: string)

  /** The record written by `handleSave`. */
  datatype Payload = Payload(carId: string, pricingType: string, amount: int,
                             location: Option<string>, notes: Option<string>)

  /** The form the page starts with, and the one a save leaves behind. */
  const InitialForm := Form("", "hour", 0, "", "")

  predicate ForCar(selected: string, r: PricingRule) { r.carId == selected }

  /** `filtered`: every rule for `all`, otherwise the selected car's rules. */
  function Filtered(rules: seq<PricingRule>, selected: string): seq<PricingRule> {
    if selected == "all" then rules else FilterSeq(rules, (r: PricingRule) => ForCar(selected, r))
  }

  /** `handleSave`'s guard: a car and a positive amount. */
  predicate CanSave(f: Form) {
    f.carId != "" && f.amount > 0
  }

  function PayloadOf(f: Form): Payload {
    Payload(f.carId, f.pricingType, f.amount, OrNull(f.location), OrNull(f.notes))
  }

  /** The Edit button's prefill: null location and notes become ''. */
  function EditForm(r: PricingRule): Form {
    Form(r.carId, r.pricingType, r.amount, OrElse(r.location, ""), OrElse(r.notes, ""))
  }

  predicate OfType(t: string, r: PricingRule) { r.pricingType == t }

  /** `rules.filter(r => r.pricing_type === t).length`. */
  function CountOf(rules: seq<PricingRule>, t: string): nat {
    CountIf(rules, (r: PricingRule) => OfType(t, r))
  }

  // -------------------------------------------------------------------
  // Properties

  /** `all` lists every rule; any other selection lists exactly the rules for
      that car, in the page's order. */
  lemma FilterContents(rules: seq<PricingRule>, selected: string)
    ensures selected == "all" ==> Filtered(rules, selected) == rules
    ensures selected != "all" ==>
      && (forall r :: r in Filtered(rules, selected) <==> r in rules && r.carId == selected)
      && IsSubseq(Filtered(rules, selected), rules)
  {
    if selected != "all" {
      FilterSubseq(rules, (r: PricingRule) => ForCar(selected, r));
    }
  }

  /** An empty location or notes is sent as null, any other value as is. */
  lemma PayloadOptional(f: Form)
    ensures PayloadOf(f).location.None? <==> f.location == ""
    ensures PayloadOf(f).notes.None? <==> f.notes == ""
    ensures PayloadOf(f).location.Some? ==> PayloadOf(f).location.value == f.location
    ensures PayloadOf(f).notes.Some? ==> PayloadOf(f).notes.value == f.notes
  {
  }

  /** Editing a rule and saving it sends the rule's own values back, with an
      empty location or notes sent as null. */
  lemma EditRoundTrip(r: PricingRule)
    ensures PayloadOf(EditForm(r)) ==
      Payload(r.carId, r.pricingType, r.amount,
              if Truthy(r.location) then r.location else None,
              if Truthy(r.notes) then r.notes else None)
    ensures CanSave(EditForm(r)) <==> r.carId != "" && r.amount > 0
  {
  }

  /** Each count is the length of its filter, and as no rule has two types
      the three counts add up to at most the number of rules. */
  lemma {:induction false} TypeCounts(rules: seq<PricingRule>)
    ensures CountOf(rules, "hour") == |FilterSeq(rules, (r: PricingRule) => OfType("hour", r))|
    ensures CountOf(rules, "day") == |FilterSeq(rules, (r: PricingRule) => OfType("day", r))|
    ensures CountOf(rules, "trip") == |FilterSeq(rules, (r: PricingRule) => OfType("trip", r))|
    ensures CountOf(rules, "hour") + CountOf(rules, "day") + CountOf(rules, "trip") <= |rules|
  {
    CountIsFilterLength(rules, (r: PricingRule) => OfType("hour", r));
    CountIsFilterLength(rules, (r: PricingRule) => OfType("day", r));
    CountIsFilterLength(rules, (r: PricingRule) => OfType("trip", r));
    CountExclusive(rules, (r: PricingRule) => OfType("hour", r), (r: PricingRule) => OfType("day", r),
                   (r: PricingRule) => OfType("trip", r));
  }

  // -------------------------------------------------------------------
  // The editor dialog

  class RuleEditor {
    var form: Form
    var editId: Option<string>
    var open: bool

    constructor ()
      ensures form == InitialForm && editId.None? && !open
    {
      form := InitialForm;
      editId := None;
      open := false;
    }

    /** The dialog's `onOpenChange`: closing it forgets the edited id but
        keeps the form. */
    method SetOpen(v: bool)
      modifies this
      ensures open == v && form == old(form)
      ensures editId == if v then old(editId) else None
    {
      open := v;
      if !v {
        editId := None;
      }
    }

    /** A change to one of the form's inputs. */
    method EditFields(f: Form)
      modifies this
      ensures form == f && editId == old(editId) && open == old(open)
    {
      form := f;
    }

    /** The Edit button of a rule. */
    method StartEdit(r: PricingRule)
      modifies this
      ensures form == EditForm(r) && editId == Some(r.id) && open
    {
      form := EditForm(r);
      editId := Some(r.id);
      open := true;
    }

    /** `handleSave`. A rejected form writes nothing; otherwise the write is
        sent and, whatever the gateway answers, the dialog closes with the
        initial form. */
    method Save() returns (write: Option<Write<Payload>>)
      modifies this
      ensures !CanSave(old(form)) ==> write.None? && form == old(form) && editId == old(editId) && open == old(open)
      ensures CanSave(old(form)) ==>
        && write == Some(if Truthy(old(editId)) then Update(old(editId).value, PayloadOf(old(form)))
                         else Insert(PayloadOf(old(form))))
        && !open && editId.None? && form == InitialForm
    {
      if !CanSave(form) {
        write := None;
      } else {
        write := Some(if Truthy(editId) then Update(editId.value, PayloadOf(form)) else Insert(PayloadOf(form)));
        open := false;
        editId := None;
        form := InitialForm;
      }
    }
  }
}
