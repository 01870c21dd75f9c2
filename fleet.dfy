/** The Cars (fleet) admin page: the save-time validation and payload with
    its comma-separated features, the Edit prefill, the search and status
    filter, the fleet statistics, the seat input, and the editor dialog. */
module Fleet {
  import opened Common

  /** A row of the `cars` collection (`CarRow`); `kind` is the row's `type`. */
  datatype FleetCar = FleetCar(
    id: string, name: string, kind: string, seats: int, description: Option<string>,
    features: seq<string>, image: Option<string>, images: seq<string>, status: string)

  /** The dialog form; `features` is the comma-separated text field. */
  datatype Form = Form(
    name: string, kind: string, seats: int, description: string,
    features: string, image: string, status: string)

  /** The record written by `handleSave`. */
  datatype Payload = Payload(
    name: string, kind: string, seats: int, description: string,
    features: seq<string>, image: Option<string>, images: seq<string>, status: string)

  /** `emptyForm`. */
  const EmptyForm := Form("", "", 5, "", "", "", "available")

  /** `handleSave`'s guard: a name and a type. */
  predicate CanSave(f: Form) {
    f.name != "" && f.kind != ""
  }

  /** `map((f) => f.trim())`. */
  function TrimAll(xs: seq<string>): (r: seq<string>)
    ensures |r| == |xs| && forall i :: 0 <= i < |xs| ==> r[i] == Trim(xs[i])
  {
    seq(|xs|, i requires 0 <= i < |xs| => Trim(xs[i]))
  }

  predicate NonEmpty(f: string) { f != "" }

  /** `features.split(',').map((f) => f.trim()).filter(Boolean)`. */
  function ParseFeatures(s: string): seq<string> {
    FilterSeq(TrimAll(Split(s, ',')), NonEmpty)
  }

  /** `features.join(', ')`. */
  function JoinFeatures(fs: seq<string>): string {
    Join(fs, ", ")
  }

  function PayloadOf(f: Form): Payload {
    Payload(f.name, f.kind, f.seats, f.description, ParseFeatures(f.features),
            OrNull(f.image), if f.image != "" then [f.image] else [], f.status)
  }

  /** `handleEdit`'s prefill: null description and image become ''. */
  function EditForm(c: FleetCar): Form {
    Form(c.name, c.kind, c.seats, OrElse(c.description, ""), JoinFeatures(c.features),
         OrElse(c.image, ""), c.status)
  }

  /** The seat input's `parseInt(value) || 5`: NaN and 0 become 5. */
  function SeatsFromInput(s: string): int {
    match ParseInt(s)
    case None => 5
    case Some(v) => if v == 0 then 5 else v
  }

  /** The search and status filter of `filtered`. */
  predicate Matches(search: string, statusFilter: string, c: FleetCar) {
    (Contains(Lower(c.name), Lower(search)) || Contains(Lower(c.kind), Lower(search))) &&
    (statusFilter == "all" || c.status == statusFilter)
  }

  function Filtered(cars: seq<FleetCar>, search: string, statusFilter: string): seq<FleetCar> {
    FilterSeq(cars, (c: FleetCar) => Matches(search, statusFilter, c))
  }

  datatype Stats = Stats(total: nat, available: nat, inMaintenance: nat)

  predicate IsAvailable(c: FleetCar) { c.status == "available" }
  predicate InGarage(c: FleetCar) { c.status == "garage" }

  /** `fleetStats`. */
  function StatsOf(cars: seq<FleetCar>): Stats {
    Stats(|cars|, CountIf(cars, IsAvailable), CountIf(cars, InGarage))
  }

  // -------------------------------------------------------------------
  // Features

  /** A feature that survives a parse: non-empty, trimmed, without a comma. */
  predicate GoodFeature(f: string) {
    f != "" && Trimmed(f) && ',' !in f
  }

  /** Every parsed feature is non-empty, trimmed and comma-free. */
  lemma ParsedFeaturesAreGood(s: string)
    ensures forall i :: 0 <= i < |ParseFeatures(s)| ==> GoodFeature(ParseFeatures(s)[i])
  {
    var parts := Split(s, ',');
    var trimmed := TrimAll(parts);
    forall i | 0 <= i < |trimmed| ensures Trimmed(trimmed[i]) && ',' !in trimmed[i] {
      TrimIsTrimmed(parts[i]);
      TrimAvoids(parts[i], ',');
    }
  }

  /** Joining good features with ', ' and parsing the text gives them back. */
  lemma {:induction false} FeaturesRoundTrip(fs: seq<string>)
    requires forall i :: 0 <= i < |fs| ==> GoodFeature(fs[i])
    ensures ParseFeatures(JoinFeatures(fs)) == fs
  {
    if |fs| == 0 {
      assert Split("", ',') == [""];
      assert TrimAll([""]) == [""];
    } else {
      assert ", " == [','] + " ";
      SplitJoin(fs, ',', " ");
      var parts := [fs[0]] + Prefixed(fs[1..], " ");
      assert Split(JoinFeatures(fs), ',') == parts;
      forall i | 0 <= i < |fs| ensures Trim(parts[i]) == fs[i] {
        if i == 0 {
          TrimOfTrimmed(fs[0]);
        } else {
          assert parts[i] == " " + fs[i];
          TrimAfterBlank(fs[i]);
        }
      }
      assert TrimAll(parts) == fs;
      FilterAll(fs, NonEmpty);
    }
  }

  /** Parsing the text, joining the result and parsing again changes
      nothing: a second save keeps the features of the first. */
  lemma ParseJoinParse(s: string)
    ensures ParseFeatures(JoinFeatures(ParseFeatures(s))) == ParseFeatures(s)
  {
    ParsedFeaturesAreGood(s);
    FeaturesRoundTrip(ParseFeatures(s));
  }

  // -------------------------------------------------------------------
  // Payload and prefill

  /** An empty image is sent as `image = null, images = []`, any other as
      `image = images[0]` with `images` holding it alone; the other fields are
      the form's, features parsed. */
  lemma PayloadImage(f: Form)
    ensures PayloadOf(f).image.None? <==> f.image == ""
    ensures PayloadOf(f).image.None? <==> PayloadOf(f).images == []
    ensures PayloadOf(f).image.Some? ==> PayloadOf(f).images == [f.image] && PayloadOf(f).image.value == f.image
    ensures PayloadOf(f).features == ParseFeatures(f.features)
    ensures PayloadOf(f).name == f.name && PayloadOf(f).kind == f.kind && PayloadOf(f).seats == f.seats
  {
  }

  /** Editing a stored car and saving it straight away sends its own name,
      type, seats and status, its features when they are good, and its main
      image; the gallery is replaced by that one image. */
  lemma EditRoundTrip(c: FleetCar)
    requires forall i :: 0 <= i < |c.features| ==> GoodFeature(c.features[i])
    ensures var p := PayloadOf(EditForm(c));
      && p.name == c.name && p.kind == c.kind && p.seats == c.seats && p.status == c.status
      && p.description == OrElse(c.description, "")
      && p.features == c.features
      && p.image == (if Truthy(c.image) then c.image else None)
      && p.images == (if Truthy(c.image) then [c.image.value] else [])
  {
    FeaturesRoundTrip(c.features);
  }

  // -------------------------------------------------------------------
  // Seats

  /** A positive count typed in is kept; an empty or `0` input, or one that
      does not start with a number, becomes 5; any other input is the number
      it starts with. */
  lemma {:induction false} SeatsInput(n: nat, s: string)
    ensures n > 0 ==> SeatsFromInput(NatToString(n)) == n
    ensures SeatsFromInput("") == 5 && SeatsFromInput("0") == 5
    ensures ParseInt(s).None? || ParseInt(s) == Some(0) ==> SeatsFromInput(s) == 5
    ensures ParseInt(s).Some? && ParseInt(s).value != 0 ==> SeatsFromInput(s) == ParseInt(s).value
  {
    ParseIntOfNat(n);
    ParseIntOfNat(0);
    assert NatToString(0) == "0";
  }

  // -------------------------------------------------------------------
  // Filter and statistics

  /** A car is listed exactly when the search is a case-insensitive substring
      of its name or type and the status filter is `all` or its status; the
      list keeps the page's order. */
  lemma FilterMembership(cars: seq<FleetCar>, search: string, statusFilter: string, c: FleetCar)
    requires c in cars
    ensures c in Filtered(cars, search, statusFilter) <==>
      (Contains(Lower(c.name), Lower(search)) || Contains(Lower(c.kind), Lower(search))) &&
      (statusFilter == "all" || c.status == statusFilter)
    ensures IsSubseq(Filtered(cars, search, statusFilter), cars)
  {
    FilterSubseq(cars, (x: FleetCar) => Matches(search, statusFilter, x));
  }

  /** With an empty search and `all`, every car is listed. */
  lemma {:induction false} NoFilter(cars: seq<FleetCar>)
    ensures Filtered(cars, "", "all") == cars
  {
    forall i | 0 <= i < |cars| ensures Matches("", "all", cars[i]) {
      ContainsEmpty(Lower(cars[i].name));
    }
    FilterAll(cars, (x: FleetCar) => Matches("", "all", x));
  }

  predicate Neither(c: FleetCar) { false }

  /** `total` is the list length, `available` and `inMaintenance` the lengths
      of the two status filters, and no car is counted twice. */
  lemma FleetStatsBound(cars: seq<FleetCar>)
    ensures StatsOf(cars).total == |cars|
    ensures StatsOf(cars).available == |FilterSeq(cars, IsAvailable)|
    ensures StatsOf(cars).inMaintenance == |FilterSeq(cars, InGarage)|
    ensures StatsOf(cars).available + StatsOf(cars).inMaintenance <= StatsOf(cars).total
  {
    CountIsFilterLength(cars, IsAvailable);
    CountIsFilterLength(cars, InGarage);
    CountExclusive(cars, IsAvailable, InGarage, Neither);
    assert CountIf(cars, Neither) >= 0;
  }

  // -------------------------------------------------------------------
  // The editor dialog

  class CarEditor {
    var form: Form
    var editId: Option<string>
    var open: bool

    constructor ()
      ensures form == EmptyForm && editId.None? && !open
    {
      form := EmptyForm;
      editId := None;
      open := false;
    }

    /** The dialog's `onOpenChange`: closing it forgets the edit. */
    method SetOpen(v: bool)
      modifies this
      ensures open == v
      ensures !v ==> editId.None? && form == EmptyForm
      ensures v ==> editId == old(editId) && form == old(form)
    {
      open := v;
      if !v {
        editId := None;
        form := EmptyForm;
      }
    }

    /** A change to one of the form's inputs. */
    method EditFields(f: Form)
      modifies this
      ensures form == f && editId == old(editId) && open == old(open)
    {
      form := f;
    }

    /** A change to the seat input. */
    method EditSeats(input: string)
      modifies this
      ensures form == old(form).(seats := SeatsFromInput(input))
      ensures editId == old(editId) && open == old(open)
    {
      form := form.(seats := SeatsFromInput(input));
    }

    /** A finished upload puts its public URL in the image field. */
    method UploadDone(publicUrl: string)
      modifies this
      ensures form == old(form).(image := publicUrl)
      ensures editId == old(editId) && open == old(open)
    {
      form := form.(image := publicUrl);
    }

    /** `handleEdit`. */
    method StartEdit(c: FleetCar)
      modifies this
      ensures form == EditForm(c) && editId == Some(c.id) && open
    {
      form := EditForm(c);
      editId := Some(c.id);
      open := true;
    }

    /** `handleSave`; `failed` is whether the gateway answered with an error.
        A rejected form writes nothing; a failed write leaves the dialog as it
        is; a successful one closes it with an empty form. */
    method Save(failed: bool) returns (write: Option<Write<Payload>>)
      modifies this
      ensures !CanSave(old(form)) ==> write.None?
      ensures CanSave(old(form)) ==>
        write == Some(if Truthy(old(editId)) then Update(old(editId).value, PayloadOf(old(form)))
                      else Insert(PayloadOf(old(form))))
      ensures !CanSave(old(form)) || failed ==> form == old(form) && editId == old(editId) && open == old(open)
      ensures CanSave(old(form)) && !failed ==> !open && editId.None? && form == EmptyForm
    {
      if !CanSave(form) {
        write := None;
      } else {
        var payload := PayloadOf(form);
        if Truthy(editId) {
          write := Some(Update(editId.value, payload));
        } else {
          write := Some(Insert(payload));
        }
        if !failed {
          open := false;
          editId := None;
          form := EmptyForm;
        }
      }
    }
  }
}
