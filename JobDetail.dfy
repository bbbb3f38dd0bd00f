/** The job detail page of the employer dashboard: a loaded job is normalised
    into an editable form, the form is edited field by field, and saving
    assembles the update payload sent with `PUT /jobs/:id`. */
module JobDetail {
  import opened Common
  import opened JobRecord

  // ---------------------------------------------------------------------
  // The editable form

  datatype HourlyFields = HourlyFields(hourlyRate: string, estimatedHours: string, minHours: string, maxHours: string)

  datatype FixedPriceFields = FixedPriceFields(totalBudget: string, estimatedDuration: string)

  datatype CompensationFields = CompensationFields(hourly: HourlyFields, fixedPrice: FixedPriceFields)

  datatype JobForm = JobForm(
    title: string,
    description: string,
    requirements: seq<string>,
    location: string,
    jobType: string,
    pricingType: string,
    compensation: CompensationFields,
    status: string,
    timezone: string,
    vacancies: int)

  const EmptyHourly := HourlyFields("", "", "", "")
  const EmptyFixedPrice := FixedPriceFields("", "")
  const EmptyCompensation := CompensationFields(EmptyHourly, EmptyFixedPrice)

  /** The form before any job is loaded. */
  const InitialForm := JobForm("", "", [""], "", "remote", "hourly", EmptyCompensation, "active", "", 1)

  // ---------------------------------------------------------------------
  // Loading a job into the form

  /** The editable requirement list of a loaded job. */
  function LoadRequirements(r: Requirements): (reqs: seq<string>)
    ensures |reqs| >= 1
    ensures r.ReqArray? && r.items != [] ==> reqs == r.items
    ensures r.ReqString? && r.text != "" ==> reqs == [r.text]
    ensures (r.ReqArray? && r.items == []) || r == ReqString("") || r.ReqOther? ==> reqs == [""]
  {
    match r
    case ReqArray(items) => if |items| > 0 then items else [""]
    case ReqString(text) => if text != "" then [text] else [""]
    case ReqOther => [""]
  }

  function LoadHourly(h: LoadedHourly): HourlyFields
  {
    HourlyFields(Or(h.hourlyRate, ""), Or(h.estimatedHours, ""), Or(h.minHours, ""), Or(h.maxHours, ""))
  }

  function LoadFixedPrice(f: LoadedFixedPrice): FixedPriceFields
  {
    FixedPriceFields(Or(f.totalBudget, ""), Or(f.estimatedDuration, ""))
  }

  /** Both sub-records are always present; a sub-record the job lacks is all
      empty strings, and so is every missing field of one it has. */
  function LoadCompensation(c: Option<LoadedCompensation>): (comp: CompensationFields)
    ensures c.None? || c.value.hourly.None? ==> comp.hourly == EmptyHourly
    ensures c.None? || c.value.fixedPrice.None? ==> comp.fixedPrice == EmptyFixedPrice
    ensures c.Some? && c.value.hourly.Some? ==>
      var h := c.value.hourly.value;
      comp.hourly.hourlyRate == Or(h.hourlyRate, "") && comp.hourly.estimatedHours == Or(h.estimatedHours, "") &&
      comp.hourly.minHours == Or(h.minHours, "") && comp.hourly.maxHours == Or(h.maxHours, "")
    ensures c.Some? && c.value.fixedPrice.Some? ==>
      var f := c.value.fixedPrice.value;
      comp.fixedPrice.totalBudget == Or(f.totalBudget, "") &&
      comp.fixedPrice.estimatedDuration == Or(f.estimatedDuration, "")
  {
    match c
    case None => EmptyCompensation
    case Some(lc) =>
      CompensationFields(
        if lc.hourly.Some? then LoadHourly(lc.hourly.value) else EmptyHourly,
        if lc.fixedPrice.Some? then LoadFixedPrice(lc.fixedPrice.value) else EmptyFixedPrice)
  }

  /** JavaScript's `n || fallback` for a number that may be missing. */
  function OrNumber(n: Option<int>, fallback: int): int
  {
    if n.Some? && n.value != 0 then n.value else fallback
  }

  /** The form built from a job, on load and again on cancel. Every field is
      the job's own value when that value is truthy, and its default otherwise. */
  function FormFromJob(job: Job): (f: JobForm)
    ensures |f.requirements| >= 1
    ensures f.title == Or(job.title, "") && f.description == Or(job.description, "")
    ensures f.location == Or(job.location, "") && f.timezone == Or(job.timezone, "")
    ensures f.jobType == Or(job.jobType, "remote")
    ensures f.pricingType == Or(job.pricingType, "hourly")
    ensures f.status == Or(job.status, "active")
    ensures f.vacancies != 0
    ensures f.vacancies == (if job.vacancies.Some? && job.vacancies.value != 0 then job.vacancies.value else 1)
    ensures f.requirements == LoadRequirements(job.requirements)
    ensures f.compensation == LoadCompensation(job.compensation)
  {
    JobForm(
      Or(job.title, ""),
      Or(job.description, ""),
      LoadRequirements(job.requirements),
      Or(job.location, ""),
      Or(job.jobType, "remote"),
      Or(job.pricingType, "hourly"),
      LoadCompensation(job.compensation),
      Or(job.status, "active"),
      Or(job.timezone, ""),
      OrNumber(job.vacancies, 1))
  }

  // ---------------------------------------------------------------------
  // handleChange: the input's `name` selects the field it writes

  /** What an input name addresses. `compensation.<mode>.<field>` is split on
      dots; the third part may be missing (`undefined` in the page). */
  datatype FieldPath = CompensationPath(mode: string, field: Option<string>) | VacanciesPath | TopLevelPath(key: string)

  function ParseFieldName(name: string): FieldPath
  {
    if StartsWith(name, "compensation.") then
      assert name[12] == '.';
      var parts := Split(name, '.');
      CompensationPath(parts[1], if |parts| > 2 then Some(parts[2]) else None)
    else if name == "vacancies" then VacanciesPath
    else TopLevelPath(name)
  }

  /** What a vacancies edit stores: `parseInt(value) || 1`. */
  function VacanciesFromInput(value: string): (v: int)
    ensures v != 0
    ensures ParseInt(value).Some? && ParseInt(value).value != 0 ==> v == ParseInt(value).value
    ensures ParseInt(value).None? || ParseInt(value) == Some(0) ==> v == 1
  {
    match ParseInt(value)
    case Some(n) => if n != 0 then n else 1
    case None => 1
  }

  /** The input shows the stored number; handing that text back keeps it. */
  lemma VacanciesEchoKeepsValue(v: int)
    requires v != 0
    ensures VacanciesFromInput(Decimal(v)) == v
  {
    ParseIntDecimal(v);
  }

  function SetHourly(h: HourlyFields, field: string, value: string): HourlyFields
  {
    if field == "hourlyRate" then h.(hourlyRate := value)
    else if field == "estimatedHours" then h.(estimatedHours := value)
    else if field == "minHours" then h.(minHours := value)
    else if field == "maxHours" then h.(maxHours := value)
    else h
  }

  function SetFixedPrice(f: FixedPriceFields, field: string, value: string): FixedPriceFields
  {
    if field == "totalBudget" then f.(totalBudget := value)
    else if field == "estimatedDuration" then f.(estimatedDuration := value)
    else f
  }

  function SetTopLevel(f: JobForm, key: string, value: string): JobForm
  {
    if key == "title" then f.(title := value)
    else if key == "description" then f.(description := value)
    else if key == "location" then f.(location := value)
    else if key == "jobType" then f.(jobType := value)
    else if key == "pricingType" then f.(pricingType := value)
    else if key == "status" then f.(status := value)
    else if key == "timezone" then f.(timezone := value)
    else f
  }

  /** The form after `handleChange` for an input called `name`. A name the
      form has no field for changes nothing the page reads. */
  function ApplyChange(f: JobForm, name: string, value: string): (g: JobForm)
    ensures g.requirements == f.requirements
    ensures g.vacancies != f.vacancies ==> name == "vacancies" && g.vacancies != 0
  {
    match ParseFieldName(name)
    case CompensationPath(mode, field) =>
      if mode == "hourly" && field.Some? then
        f.(compensation := f.compensation.(hourly := SetHourly(f.compensation.hourly, field.value, value)))
      else if mode == "fixedPrice" && field.Some? then
        f.(compensation := f.compensation.(fixedPrice := SetFixedPrice(f.compensation.fixedPrice, field.value, value)))
      else f
    case VacanciesPath => f.(vacancies := VacanciesFromInput(value))
    case TopLevelPath(key) => SetTopLevel(f, key, value)
  }

  /** The text fields of the form, addressed by the input names that write them. */
  function FieldValue(f: JobForm, name: string): Option<string>
  {
    if name == "title" then Some(f.title)
    else if name == "description" then Some(f.description)
    else if name == "location" then Some(f.location)
    else if name == "jobType" then Some(f.jobType)
    else if name == "pricingType" then Some(f.pricingType)
    else if name == "status" then Some(f.status)
    else if name == "timezone" then Some(f.timezone)
    else if name == "compensation.hourly.hourlyRate" then Some(f.compensation.hourly.hourlyRate)
    else if name == "compensation.hourly.estimatedHours" then Some(f.compensation.hourly.estimatedHours)
    else if name == "compensation.hourly.minHours" then Some(f.compensation.hourly.minHours)
    else if name == "compensation.hourly.maxHours" then Some(f.compensation.hourly.maxHours)
    else if name == "compensation.fixedPrice.totalBudget" then Some(f.compensation.fixedPrice.totalBudget)
    else if name == "compensation.fixedPrice.estimatedDuration" then Some(f.compensation.fixedPrice.estimatedDuration)
    else None
  }

  /** `compensation.<mode>.<field>` is read as the path (mode, field). */
  lemma ParseCompensationName(mode: string, field: string)
    requires '.' !in mode && '.' !in field
    ensures ParseFieldName("compensation." + mode + "." + field) == CompensationPath(mode, Some(field))
  {
    var name := "compensation." + mode + "." + field;
    assert name == "compensation" + ['.'] + (mode + ['.'] + field);
    assert name[..13] == "compensation.";
    SplitAt("compensation", mode + ['.'] + field, '.');
    SplitAt(mode, field, '.');
    SplitNoSep(field, '.');
  }

  lemma ParseTopLevelName(name: string)
    requires name in {"title", "description", "location", "jobType", "pricingType", "status", "timezone"}
    ensures ParseFieldName(name) == TopLevelPath(name)
  {
  }

  /** A change to an hourly-pay input writes exactly that field. */
  lemma HourlyChangeWritesOneField(f: JobForm, field: string, value: string)
    requires field in {"hourlyRate", "estimatedHours", "minHours", "maxHours"}
    ensures var name := "compensation.hourly." + field;
            var g := ApplyChange(f, name, value);
            FieldValue(g, name) == Some(value) &&
            (forall n :: n != name ==> FieldValue(g, n) == FieldValue(f, n)) &&
            g.requirements == f.requirements && g.vacancies == f.vacancies
  {
    HourlyNameParses(f, field, value);
    HourlyFieldFrame(f, field, value);
  }

  lemma HourlyFieldFrame(f: JobForm, field: string, value: string)
    requires field in {"hourlyRate", "estimatedHours", "minHours", "maxHours"}
    ensures var name := "compensation.hourly." + field;
            var g := f.(compensation := f.compensation.(hourly := SetHourly(f.compensation.hourly, field, value)));
            FieldValue(g, name) == Some(value) &&
            (forall n :: n != name ==> FieldValue(g, n) == FieldValue(f, n))
  {
    if field == "hourlyRate" {
      assert "compensation.hourly." + field == "compensation.hourly.hourlyRate";
    } else if field == "estimatedHours" {
      assert "compensation.hourly." + field == "compensation.hourly.estimatedHours";
    } else if field == "minHours" {
      assert "compensation.hourly." + field == "compensation.hourly.minHours";
    } else {
      assert "compensation.hourly." + field == "compensation.hourly.maxHours";
    }
  }

  lemma HourlyNameParses(f: JobForm, field: string, value: string)
    requires '.' !in field
    ensures ApplyChange(f, "compensation.hourly." + field, value)
         == f.(compensation := f.compensation.(hourly := SetHourly(f.compensation.hourly, field, value)))
  {
    ParseCompensationName("hourly", field);
    assert "compensation.hourly." + field == "compensation." + "hourly" + "." + field;
  }

  /** A change to a fixed-price input writes exactly that field. */
  lemma FixedPriceChangeWritesOneField(f: JobForm, field: string, value: string)
    requires field in {"totalBudget", "estimatedDuration"}
    ensures var name := "compensation.fixedPrice." + field;
            var g := ApplyChange(f, name, value);
            FieldValue(g, name) == Some(value) &&
            (forall n :: n != name ==> FieldValue(g, n) == FieldValue(f, n)) &&
            g.requirements == f.requirements && g.vacancies == f.vacancies
  {
    FixedPriceNameParses(f, field, value);
    FixedPriceFieldFrame(f, field, value);
  }

  lemma FixedPriceFieldFrame(f: JobForm, field: string, value: string)
    requires field in {"totalBudget", "estimatedDuration"}
    ensures var name := "compensation.fixedPrice." + field;
            var g := f.(compensation := f.compensation.(fixedPrice := SetFixedPrice(f.compensation.fixedPrice, field, value)));
            FieldValue(g, name) == Some(value) &&
            (forall n :: n != name ==> FieldValue(g, n) == FieldValue(f, n))
  {
    if field == "totalBudget" {
      assert "compensation.fixedPrice." + field == "compensation.fixedPrice.totalBudget";
    } else {
      assert "compensation.fixedPrice." + field == "compensation.fixedPrice.estimatedDuration";
    }
  }

  lemma FixedPriceNameParses(f: JobForm, field: string, value: string)
    requires '.' !in field
    ensures ApplyChange(f, "compensation.fixedPrice." + field, value)
         == f.(compensation := f.compensation.(fixedPrice := SetFixedPrice(f.compensation.fixedPrice, field, value)))
  {
    ParseCompensationName("fixedPrice", field);
    assert "compensation.fixedPrice." + field == "compensation." + "fixedPrice" + "." + field;
  }

  /** A change to a top-level text input writes exactly that field. */
  lemma TopLevelChangeWritesOneField(f: JobForm, name: string, value: string)
    requires name in {"title", "description", "location", "jobType", "pricingType", "status", "timezone"}
    ensures var g := ApplyChange(f, name, value);
            FieldValue(g, name) == Some(value) &&
            (forall n :: n != name ==> FieldValue(g, n) == FieldValue(f, n)) &&
            g.requirements == f.requirements && g.vacancies == f.vacancies
  {
    ParseTopLevelName(name);
  }

  /** A vacancies edit writes the vacancies and nothing else. */
  lemma VacanciesChangeWritesOnlyVacancies(f: JobForm, value: string)
    ensures var g := ApplyChange(f, "vacancies", value);
            g == f.(vacancies := VacanciesFromInput(value)) && g.vacancies != 0
  {
    assert !StartsWith("vacancies", "compensation.");
  }

  // ---------------------------------------------------------------------
  // The requirement list editor

  function AddRequirement(reqs: seq<string>): (r: seq<string>)
    ensures |r| == |reqs| + 1 && r[..|reqs|] == reqs && r[|reqs|] == ""
  {
    reqs + [""]
  }

  function ReplaceRequirement(reqs: seq<string>, i: nat, value: string): (r: seq<string>)
    requires i < |reqs|
    ensures |r| == |reqs| && r[i] == value
    ensures forall k :: 0 <= k < |r| && k != i ==> r[k] == reqs[k]
  {
    reqs[i := value]
  }

  /** `removeRequirement(i)`: deletes entry i unless it is the only entry. */
  function RemoveRequirement(reqs: seq<string>, i: nat): (r: seq<string>)
    requires i < |reqs|
    ensures |reqs| >= 1 ==> |r| >= 1
    ensures |reqs| <= 1 ==> r == reqs
    ensures |reqs| > 1 ==>
      && |r| == |reqs| - 1
      && (forall k :: 0 <= k < i ==> r[k] == reqs[k])
      && (forall k :: i <= k < |r| ==> r[k] == reqs[k + 1])
  {
    if |reqs| > 1 then reqs[..i] + reqs[i + 1..] else reqs
  }

  // ---------------------------------------------------------------------
  // The update payload (handleUpdate)

  datatype HourlyPayload = HourlyPayload(
    hourlyRate: Option<string>, estimatedHours: Option<string>,
    minHours: Option<string>, maxHours: Option<string>)

  datatype FixedPricePayload = FixedPricePayload(totalBudget: Option<string>, estimatedDuration: Option<string>)

  /** The `compensation` object of the payload: one key, `hourly` or `fixedPrice`. */
  datatype CompensationPayload = HourlyCompensation(hourly: HourlyPayload) | FixedPriceCompensation(fixedPrice: FixedPricePayload)

  /** A field that is `None` is `undefined` in the page and is not sent. */
  datatype JobPayload = JobPayload(
    title: string,
    description: string,
    requirements: Option<seq<string>>,
    location: Option<string>,
    jobType: string,
    pricingType: string,
    status: string,
    timezone: Option<string>,
    vacancies: int,
    compensation: Option<CompensationPayload>)

  /** `s || undefined`, and `s ? parseFloat(s) : undefined` with the number
      kept as the text it is parsed from. */
  function Present(s: string): (o: Option<string>)
    ensures o.None? <==> s == ""
    ensures o.Some? ==> o.value == s
  {
    if s != "" then Some(s) else None
  }

  /** `r.trim()` is truthy. */
  predicate HasText(r: string)
  {
    Trim(r) != ""
  }

  /** The requirements that are sent: the entries with text, in order. */
  function SubmittedRequirements(reqs: seq<string>): (r: seq<string>)
    ensures forall i :: 0 <= i < |r| ==> !IsBlank(r[i])
    ensures forall i :: 0 <= i < |reqs| && !IsBlank(reqs[i]) ==> reqs[i] in r
    ensures IsSubsequence(r, reqs)
    ensures forall x :: multiset(r)[x] == if IsBlank(x) then 0 else multiset(reqs)[x]
  {
    var kept := Filter(reqs, HasText);
    FilterIsSubsequence(reqs, HasText);
    forall x ensures multiset(kept)[x] == if IsBlank(x) then 0 else multiset(reqs)[x] {
      FilterCounts(reqs, HasText, x);
      TrimEmptyIffBlank(x);
    }
    forall i | 0 <= i < |kept| ensures !IsBlank(kept[i]) {
      TrimEmptyIffBlank(kept[i]);
    }
    forall i | 0 <= i < |reqs| && !IsBlank(reqs[i]) ensures reqs[i] in kept {
      TrimEmptyIffBlank(reqs[i]);
    }
    kept
  }

  predicate HourlyTriggered(h: HourlyFields)
  {
    h.hourlyRate != "" || h.estimatedHours != ""
  }

  predicate FixedPriceTriggered(f: FixedPriceFields)
  {
    f.totalBudget != "" || f.estimatedDuration != ""
  }

  function HourlyToPayload(h: HourlyFields): HourlyPayload
  {
    HourlyPayload(Present(h.hourlyRate), Present(h.estimatedHours), Present(h.minHours), Present(h.maxHours))
  }

  function FixedPriceToPayload(f: FixedPriceFields): FixedPricePayload
  {
    FixedPricePayload(Present(f.totalBudget), Present(f.estimatedDuration))
  }

  /** The compensation sent for a form: only the sub-record of the active
      pricing type, and only when one of its two trigger fields is filled in. */
  function CompensationToSend(f: JobForm): (c: Option<CompensationPayload>)
    ensures c.Some? <==>
      (f.pricingType == "hourly" && HourlyTriggered(f.compensation.hourly)) ||
      (f.pricingType == "fixed_price" && FixedPriceTriggered(f.compensation.fixedPrice))
    ensures c.Some? && c.value.HourlyCompensation? ==> f.pricingType == "hourly"
    ensures c.Some? && c.value.FixedPriceCompensation? ==> f.pricingType == "fixed_price"
  {
    if f.pricingType == "hourly" then
      if HourlyTriggered(f.compensation.hourly) then Some(HourlyCompensation(HourlyToPayload(f.compensation.hourly))) else None
    else if f.pricingType == "fixed_price" then
      if FixedPriceTriggered(f.compensation.fixedPrice) then Some(FixedPriceCompensation(FixedPriceToPayload(f.compensation.fixedPrice))) else None
    else None
  }

  function BuildPayload(f: JobForm): (p: JobPayload)
    ensures p.vacancies >= 1 && (f.vacancies > 0 ==> p.vacancies == f.vacancies)
    ensures p.location.None? <==> f.location == ""
    ensures p.timezone.None? <==> f.timezone == ""
    ensures p.requirements.None? <==> forall i :: 0 <= i < |f.requirements| ==> IsBlank(f.requirements[i])
    ensures p.requirements.Some? ==>
      && p.requirements.value != []
      && forall i :: 0 <= i < |p.requirements.value| ==> !IsBlank(p.requirements.value[i])
    ensures p.title == f.title && p.description == f.description && p.jobType == f.jobType
    ensures p.pricingType == f.pricingType && p.status == f.status
    ensures p.requirements.Some? ==> p.requirements.value == SubmittedRequirements(f.requirements)
    ensures p.compensation == CompensationToSend(f)
  {
    var reqs := SubmittedRequirements(f.requirements);
    JobPayload(
      f.title,
      f.description,
      if |reqs| > 0 then Some(reqs) else None,
      Present(f.location),
      f.jobType,
      f.pricingType,
      f.status,
      Present(f.timezone),
      if f.vacancies > 0 then f.vacancies else 1,
      CompensationToSend(f))
  }

  /** The payload's compensation has at most one key, and it is the one
      `pricingType` names; the values of the other pricing mode never leave
      the page. */
  lemma PayloadCompensationMatchesPricing(f: JobForm, otherHourly: HourlyFields, otherFixed: FixedPriceFields)
    ensures var c := BuildPayload(f).compensation;
            c.Some? ==> (c.value.HourlyCompensation? <==> f.pricingType == "hourly")
    ensures f.pricingType == "hourly" ==>
      BuildPayload(f) == BuildPayload(f.(compensation := f.compensation.(fixedPrice := otherFixed)))
    ensures f.pricingType == "fixed_price" ==>
      BuildPayload(f) == BuildPayload(f.(compensation := f.compensation.(hourly := otherHourly)))
    ensures f.pricingType != "hourly" && f.pricingType != "fixed_price" ==> BuildPayload(f).compensation.None?
  {
  }

  /** Hourly pay with only the hour bounds filled in sends no compensation. */
  lemma HourBoundsAloneSendNothing(f: JobForm)
    requires f.pricingType == "hourly"
    requires f.compensation.hourly.hourlyRate == "" && f.compensation.hourly.estimatedHours == ""
    ensures BuildPayload(f).compensation.None?
  {
  }

  /** An hourly rate of "25" and no estimated hours sends `{hourly: {hourlyRate: 25}}`. */
  lemma HourlyRateOnlyPayload(f: JobForm)
    requires f.pricingType == "hourly" && f.compensation.hourly == HourlyFields("25", "", "", "")
    ensures BuildPayload(f).compensation == Some(HourlyCompensation(HourlyPayload(Some("25"), None, None, None)))
  {
  }

  // ---------------------------------------------------------------------
  // Saving and loading again

  /** A numeric field as it comes back: sent as `parseFloat(s)`, shown as `echo(s)`. */
  function EchoNumber(echo: string -> string, o: Option<string>): Option<string>
  {
    if o.Some? then Some(echo(o.value)) else None
  }

  /** The job the server holds after storing a payload, as it is sent back.
      The text fields come back as sent; the numeric compensation fields come
      back through `echo` (`estimatedDuration` is sent as text). */
  function StoredJob(id: string, employer: EmployerRef, p: JobPayload, echo: string -> string): Job
  {
    Job(
      id,
      Some(p.title),
      Some(p.description),
      if p.requirements.Some? then ReqArray(p.requirements.value) else ReqOther,
      p.location,
      Some(p.jobType),
      Some(p.pricingType),
      match p.compensation
      case None => None
      case Some(HourlyCompensation(h)) =>
        Some(LoadedCompensation(Some(LoadedHourly(
          EchoNumber(echo, h.hourlyRate), EchoNumber(echo, h.estimatedHours),
          EchoNumber(echo, h.minHours), EchoNumber(echo, h.maxHours))), None))
      case Some(FixedPriceCompensation(fp)) =>
        Some(LoadedCompensation(None, Some(LoadedFixedPrice(EchoNumber(echo, fp.totalBudget), fp.estimatedDuration)))),
      Some(p.status),
      p.timezone,
      Some(p.vacancies),
      employer)
  }

  /** The form shown after a save whose payload the server stored as sent. */
  function Reloaded(f: JobForm, echo: string -> string): JobForm
  {
    FormFromJob(StoredJob("", NoEmployer, BuildPayload(f), echo))
  }

  /** What a numeric input shows after the save and the reload: an empty
      input is not sent and comes back empty, any other comes back as `echo`. */
  function ReloadedNumber(echo: string -> string, s: string): string
  {
    if s == "" then "" else echo(s)
  }

  lemma OrPresent(s: string)
    ensures Or(Present(s), "") == s
  {
  }

  lemma OrEchoPresent(echo: string -> string, s: string)
    ensures Or(EchoNumber(echo, Present(s)), "") == ReloadedNumber(echo, s)
  {
  }

  /** Saving and reloading keeps every text field the payload carries, drops
      only the blank requirements, clamps vacancies to at least 1, and keeps
      exactly the compensation sub-record that was sent, its numbers passed
      through the number round trip. */
  lemma {:induction false} ReloadKeepsForm(f: JobForm, echo: string -> string)
    ensures var g := Reloaded(f, echo);
      && g.title == f.title && g.description == f.description
      && g.location == f.location && g.timezone == f.timezone
      && g.jobType == (if f.jobType != "" then f.jobType else "remote")
      && g.pricingType == (if f.pricingType != "" then f.pricingType else "hourly")
      && g.status == (if f.status != "" then f.status else "active")
      && g.vacancies == (if f.vacancies > 0 then f.vacancies else 1)
      && g.requirements == (if SubmittedRequirements(f.requirements) == [] then [""] else SubmittedRequirements(f.requirements))
      && g.compensation == (
        var h := f.compensation.hourly;
        var fp := f.compensation.fixedPrice;
        if CompensationToSend(f).None? then EmptyCompensation
        else if f.pricingType == "hourly" then
          CompensationFields(HourlyFields(
            ReloadedNumber(echo, h.hourlyRate), ReloadedNumber(echo, h.estimatedHours),
            ReloadedNumber(echo, h.minHours), ReloadedNumber(echo, h.maxHours)), EmptyFixedPrice)
        else CompensationFields(EmptyHourly, FixedPriceFields(ReloadedNumber(echo, fp.totalBudget), fp.estimatedDuration)))
  {
    var h := f.compensation.hourly;
    var fp := f.compensation.fixedPrice;
    OrEchoPresent(echo, h.hourlyRate);
    OrEchoPresent(echo, h.estimatedHours);
    OrEchoPresent(echo, h.minHours);
    OrEchoPresent(echo, h.maxHours);
    OrEchoPresent(echo, fp.totalBudget);
    OrPresent(fp.estimatedDuration);
  }

  /** An input whose number comes back as it was typed: empty or canonical. */
  predicate NumberText(s: string)
  {
    s == "" || CanonicalNumeral(s)
  }

  /** Every numeric compensation input holds a number that comes back as typed. */
  predicate CanonicalCompensation(f: JobForm)
  {
    var h := f.compensation.hourly;
    && NumberText(h.hourlyRate) && NumberText(h.estimatedHours)
    && NumberText(h.minHours) && NumberText(h.maxHours)
    && NumberText(f.compensation.fixedPrice.totalBudget)
  }

  /** With canonical numbers, the compensation sub-record that was sent comes
      back exactly as typed. */
  lemma ReloadKeepsCanonicalCompensation(f: JobForm, echo: string -> string)
    requires NumberEcho(echo) && CanonicalCompensation(f)
    ensures Reloaded(f, echo).compensation == (
      if CompensationToSend(f).None? then EmptyCompensation
      else if f.pricingType == "hourly" then CompensationFields(f.compensation.hourly, EmptyFixedPrice)
      else CompensationFields(EmptyHourly, f.compensation.fixedPrice))
  {
    ReloadKeepsForm(f, echo);
  }

  /** Saving twice without edits changes nothing the second time, when the
      numbers typed come back as typed. */
  lemma {:induction false} ReloadIdempotent(f: JobForm, echo: string -> string)
    requires NumberEcho(echo) && CanonicalCompensation(f)
    ensures Reloaded(Reloaded(f, echo), echo) == Reloaded(f, echo)
  {
    var g := Reloaded(f, echo);
    ReloadKeepsForm(f, echo);
    ReloadKeepsCanonicalCompensation(f, echo);
    assert CanonicalCompensation(g);
    ReloadKeepsForm(g, echo);
    ReloadKeepsCanonicalCompensation(g, echo);
    var kept := SubmittedRequirements(f.requirements);
    if kept == [] {
      assert g.requirements == [""];
      assert IsBlank("");
      assert Filter([""], HasText) == [] by {
        TrimEmptyIffBlank("");
      }
    } else {
      assert g.requirements == kept;
      FilterAllKept(kept, HasText) by {
        forall i | 0 <= i < |kept| ensures HasText(kept[i]) {
          TrimEmptyIffBlank(kept[i]);
        }
      }
    }
  }

  /** A rate typed as "0" is sent as the number 0 and comes back empty; with
      only the hour bounds left, the next save sends no compensation at all. */
  lemma ZeroRateDropsCompensation(f: JobForm, echo: string -> string)
    requires NumberEcho(echo)
    requires f.pricingType == "hourly" && f.compensation.hourly == HourlyFields("0", "", "5", "")
    ensures BuildPayload(f).compensation.Some?
    ensures Reloaded(f, echo).compensation.hourly == HourlyFields("", "", "5", "")
    ensures BuildPayload(Reloaded(f, echo)).compensation.None?
  {
    SplitNoSep("5", '.');
    assert CanonicalNumeral("5");
    assert ZeroNumeral("0");
    ReloadKeepsForm(f, echo);
  }

  // ---------------------------------------------------------------------
  // Badge labels shown for a job

  /** `getJobTypeBadge(jobType).label`: unknown types fall back to remote. */
  function JobTypeLabel(jobType: Option<string>): (shown: string)
    ensures shown in {"Remote", "On-Site", "Hybrid"}
    ensures jobType == Some("on_site") <==> shown == "On-Site"
    ensures jobType == Some("hybrid") <==> shown == "Hybrid"
  {
    if jobType == Some("on_site") then "On-Site"
    else if jobType == Some("hybrid") then "Hybrid"
    else "Remote"
  }

  /** `getPricingTypeBadge(pricingType).label`: unknown types fall back to hourly. */
  function PricingTypeLabel(pricingType: Option<string>): (shown: string)
    ensures shown in {"Hourly", "Fixed Price"}
    ensures pricingType == Some("fixed_price") <==> shown == "Fixed Price"
  {
    if pricingType == Some("fixed_price") then "Fixed Price" else "Hourly"
  }

  // ---------------------------------------------------------------------
  // The page state

  class JobDetailPage {
    var job: Option<Job>
    var isEditing: bool
    var fetchLoading: bool
    var formData: JobForm
    var loading: bool
    var error: Option<string>
    var success: Option<string>

    /** The requirement editor always has at least one row. */
    ghost predicate Valid()
      reads this`formData
    {
      |formData.requirements| >= 1
    }

    /** Mounting with a job from the parent, or with only an id to fetch. The
        effect on `job` has already run: a given job is in the form. */
    constructor (jobProp: Option<Job>, jobId: Option<string>)
      ensures Valid()
      ensures job == jobProp && !isEditing && !loading && error.None? && success.None?
      ensures fetchLoading == (jobProp.None? && Truthy(jobId))
      ensures formData == if jobProp.Some? then FormFromJob(jobProp.value) else InitialForm
    {
      job := jobProp;
      isEditing := false;
      fetchLoading := jobProp.None? && Truthy(jobId);
      formData := if jobProp.Some? then FormFromJob(jobProp.value) else InitialForm;
      loading := false;
      error := None;
      success := None;
    }

    /** The outcome of `GET /jobs/:id` for a page opened with only an id. */
    method FinishFetchJob(response: Response<Job>)
      requires Valid()
      modifies this
      ensures Valid() && !fetchLoading
      ensures isEditing == old(isEditing) && loading == old(loading) && success == old(success)
      ensures response.Ok? ==> job == Some(response.data) && formData == FormFromJob(response.data) && error == old(error)
      ensures response.Fail? ==>
        && job == old(job) && formData == old(formData)
        && error == Some(MsgThenMessage(response.err, "Failed to load job"))
    {
      match response {
        case Ok(j) =>
          job := Some(j);
          formData := FormFromJob(j);
        case Fail(e) =>
          error := Some(MsgThenMessage(e, "Failed to load job"));
      }
      fetchLoading := false;
    }

    method StartEditing()
      modifies this`isEditing
      ensures isEditing
    {
      isEditing := true;
    }

    method HandleChange(name: string, value: string)
      requires Valid()
      modifies this`formData, this`error, this`success
      ensures Valid()
      ensures formData == ApplyChange(old(formData), name, value)
      ensures error.None? && success.None?
    {
      formData := ApplyChange(formData, name, value);
      error := None;
      success := None;
    }

    method HandleRequirementChange(index: nat, value: string)
      requires Valid() && index < |formData.requirements|
      modifies this`formData
      ensures Valid()
      ensures formData == old(formData).(requirements := ReplaceRequirement(old(formData.requirements), index, value))
    {
      formData := formData.(requirements := ReplaceRequirement(formData.requirements, index, value));
    }

    method AddRequirementRow()
      requires Valid()
      modifies this`formData
      ensures Valid()
      ensures formData == old(formData).(requirements := AddRequirement(old(formData.requirements)))
    {
      formData := formData.(requirements := AddRequirement(formData.requirements));
    }

    method RemoveRequirementRow(index: nat)
      requires Valid() && index < |formData.requirements|
      modifies this`formData
      ensures Valid()
      ensures formData == old(formData).(requirements := RemoveRequirement(old(formData.requirements), index))
    {
      formData := formData.(requirements := RemoveRequirement(formData.requirements, index));
    }

    /** Submitting the form: the request body is the payload built from it. */
    method BeginUpdate() returns (body: JobPayload)
      requires job.Some?
      modifies this`loading, this`error, this`success
      ensures loading && error.None? && success.None?
      ensures body == BuildPayload(formData)
    {
      var b := BuildPayload(formData);
      loading := true;
      error := None;
      success := None;
      body := b;
    }

    /** The outcome of `PUT /jobs/:id`; on success the parent is told the new job. */
    method FinishUpdate(response: Response<Job>) returns (notifyUpdated: Option<Job>)
      requires Valid()
      modifies this
      ensures Valid() && !loading && fetchLoading == old(fetchLoading)
      ensures response.Ok? ==>
        && job == Some(response.data) && formData == FormFromJob(response.data)
        && !isEditing && success == Some("Job updated successfully!") && error == old(error)
        && notifyUpdated == Some(response.data)
      ensures response.Fail? ==>
        && job == old(job) && formData == old(formData) && isEditing == old(isEditing)
        && success == old(success) && error == Some(MsgThenMessage(response.err, "Failed to update job"))
        && notifyUpdated.None?
    {
      match response {
        case Ok(j) =>
          success := Some("Job updated successfully!");
          isEditing := false;
          job := Some(j);
          formData := FormFromJob(j);
          notifyUpdated := Some(j);
        case Fail(e) =>
          error := Some(MsgThenMessage(e, "Failed to update job"));
          notifyUpdated := None;
      }
      loading := false;
    }

    /** Cancel: leave edit mode and rebuild the form from the job, as on load. */
    method CancelEdit()
      requires Valid()
      modifies this`isEditing, this`formData
      ensures Valid() && !isEditing
      ensures job.Some? ==> formData == FormFromJob(job.value)
      ensures job.None? ==> formData == old(formData)
    {
      isEditing := false;
      if job.Some? {
        formData := FormFromJob(job.value);
      }
    }

    /** The delete button: nothing happens unless the confirmation is accepted. */
    method BeginDelete(confirmed: bool) returns (sent: bool)
      modifies this`loading
      ensures sent == confirmed
      ensures loading == (confirmed || old(loading))
    {
      sent := confirmed;
      if confirmed {
        loading := true;
      }
    }

    /** The outcome of `DELETE /jobs/:id`. On success the parent is told the id
        and `loading` stays set, as the page is about to be left. */
    method FinishDelete(response: Response<()>) returns (notifyDeleted: Option<string>)
      requires job.Some?
      modifies this`loading, this`error
      ensures response.Ok? ==> notifyDeleted == Some(job.value.id) && loading == old(loading) && error == old(error)
      ensures response.Fail? ==>
        && notifyDeleted.None? && !loading
        && error == Some(MsgThenMessage(response.err, "Failed to delete job"))
    {
      if response.Ok? {
        notifyDeleted := Some(job.value.id);
      } else {
        error := Some(MsgThenMessage(response.err, "Failed to delete job"));
        loading := false;
        notifyDeleted := None;
      }
    }
  }
}
