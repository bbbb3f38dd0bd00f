/** A job as the REST API hands it to the employer pages. Every field the
    pages read may be missing, so each is optional; `requirements` arrives as
    an array, as a single string, or as something else. */
module JobRecord {
  import opened Common

  datatype Requirements = ReqArray(items: seq<string>) | ReqString(text: string) | ReqOther

  datatype LoadedHourly = LoadedHourly(
    hourlyRate: Option<string>, estimatedHours: Option<string>,
    minHours: Option<string>, maxHours: Option<string>)

  datatype LoadedFixedPrice = LoadedFixedPrice(totalBudget: Option<string>, estimatedDuration: Option<string>)

  datatype LoadedCompensation = LoadedCompensation(hourly: Option<LoadedHourly>, fixedPrice: Option<LoadedFixedPrice>)

  /** `job.employer`: an id string, a populated user object (whose `_id` may
      be missing), or absent. */
  datatype EmployerRef = EmployerId(id: string) | EmployerObject(objectId: Option<string>) | NoEmployer

  datatype Job = Job(
    id: string,
    title: Option<string>,
    description: Option<string>,
    requirements: Requirements,
    location: Option<string>,
    jobType: Option<string>,
    pricingType: Option<string>,
    compensation: Option<LoadedCompensation>,
    status: Option<string>,
    timezone: Option<string>,
    vacancies: Option<int>,
    employer: EmployerRef)
}
