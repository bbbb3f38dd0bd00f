/** The employer dashboard shell: which view is active, which job the job
    views are about, and whether the mobile sidebar is open. */
module Superpanel {
  import opened Common
  import opened JobRecord

  /** The three module cards and sidebar entries, in order. */
  const ModuleKeys: seq<string> := ["postjob", "myjobs", "profile"]

  /** Every view the dashboard can show. */
  const Views: set<string> := {"dashboard", "postjob", "myjobs", "jobdetail", "applicationlist", "profile"}

  /** What `renderModule` puts on screen. */
  datatype Rendered =
    | DashboardCards(keys: seq<string>)
    | JobDetailPage(job: Option<Job>)
    | ApplicationListPage(jobId: Option<string>)
    | ModulePage(key: string)
    | NoModule

  /** `renderModule`: three views are handled by name, the rest are looked up
      among the module keys, and a key found nowhere shows nothing. */
  function Render(activeModule: string, selectedJob: Option<Job>): (r: Rendered)
    ensures r.NoModule? <==> activeModule !in Views
    ensures r.ModulePage? <==> activeModule in ModuleKeys
    ensures r.ModulePage? ==> r.key == activeModule
    ensures r.JobDetailPage? ==> r.job == selectedJob
    ensures r.ApplicationListPage? ==> (r.jobId.Some? <==> selectedJob.Some?)
    ensures activeModule == "dashboard" ==> r == DashboardCards(ModuleKeys)
    ensures activeModule == "jobdetail" ==> r == JobDetailPage(selectedJob)
    ensures activeModule == "applicationlist" ==>
      r == ApplicationListPage(if selectedJob.Some? then Some(selectedJob.value.id) else None)
  {
    if activeModule == "dashboard" then DashboardCards(ModuleKeys)
    else if activeModule == "jobdetail" then JobDetailPage(selectedJob)
    else if activeModule == "applicationlist" then
      ApplicationListPage(if selectedJob.Some? then Some(selectedJob.value.id) else None)
    else if activeModule in ModuleKeys then ModulePage(activeModule)
    else NoModule
  }

  /** A reachable dashboard state: a known view, and the two job views
      always have a job to show. */
  predicate Consistent(activeModule: string, selectedJob: Option<Job>)
  {
    && activeModule in Views
    && (activeModule == "jobdetail" || activeModule == "applicationlist" ==> selectedJob.Some?)
  }

  /** In a reachable state something is always shown, and a job page always
      gets a job. */
  lemma ConsistentRendersSomething(activeModule: string, selectedJob: Option<Job>)
    requires Consistent(activeModule, selectedJob)
    ensures !Render(activeModule, selectedJob).NoModule?
    ensures Render(activeModule, selectedJob).JobDetailPage? ==> Render(activeModule, selectedJob).job.Some?
    ensures Render(activeModule, selectedJob).ApplicationListPage? ==>
      Render(activeModule, selectedJob) == ApplicationListPage(Some(selectedJob.value.id))
  {
  }

  class Dashboard {
    var activeModule: string
    var sidebarOpen: bool
    var selectedJob: Option<Job>

    ghost predicate Valid()
      reads this
    {
      Consistent(activeModule, selectedJob)
    }

    constructor ()
      ensures Valid()
      ensures activeModule == "dashboard" && !sidebarOpen && selectedJob.None?
    {
      activeModule := "dashboard";
      sidebarOpen := false;
      selectedJob := None;
    }

    /** `JobPost`'s `onSuccess`. */
    method JobPosted()
      requires Valid()
      modifies this`activeModule
      ensures Valid() && activeModule == "myjobs"
    {
      activeModule := "myjobs";
    }

    /** `JobList`'s `onViewJob` and `onEditJob`, which do the same thing. */
    method OpenJob(job: Job)
      modifies this`activeModule, this`selectedJob
      ensures Valid() && activeModule == "jobdetail" && selectedJob == Some(job)
    {
      selectedJob := Some(job);
      activeModule := "jobdetail";
    }

    /** `JobDetail`'s `onBack`. */
    method BackFromJobDetail()
      requires Valid()
      modifies this`activeModule
      ensures Valid() && activeModule == "myjobs"
    {
      activeModule := "myjobs";
    }

    /** `JobDetail`'s `onJobUpdated`: the view stays where it is. */
    method JobUpdated(updatedJob: Job)
      requires Valid()
      modifies this`selectedJob
      ensures Valid() && selectedJob == Some(updatedJob)
    {
      selectedJob := Some(updatedJob);
    }

    /** `JobDetail`'s `onJobDeleted`. */
    method JobDeleted()
      requires Valid()
      modifies this`activeModule, this`selectedJob
      ensures Valid() && activeModule == "myjobs" && selectedJob.None?
    {
      activeModule := "myjobs";
      selectedJob := None;
    }

    /** `JobDetail`'s `onViewApplications`. */
    method ViewApplications(job: Job)
      modifies this`activeModule, this`selectedJob
      ensures Valid() && activeModule == "applicationlist" && selectedJob == Some(job)
    {
      selectedJob := Some(job);
      activeModule := "applicationlist";
    }

    /** `ApplicationList`'s `onBack`; that page only exists in the
        `applicationlist` view. */
    method BackFromApplications()
      requires Valid() && activeModule == "applicationlist"
      modifies this`activeModule
      ensures Valid() && activeModule == "jobdetail"
    {
      activeModule := "jobdetail";
    }

    /** A dashboard card: opens its module and leaves the sidebar as it is. */
    method OpenCard(key: string)
      requires Valid() && key in ModuleKeys
      modifies this`activeModule
      ensures Valid() && activeModule == key
    {
      activeModule := key;
    }

    /** A sidebar entry (the dashboard or one of the modules): opens it and
        closes the mobile sidebar. */
    method SidebarSelect(key: string)
      requires Valid() && (key == "dashboard" || key in ModuleKeys)
      modifies this`activeModule, this`sidebarOpen
      ensures Valid() && activeModule == key && !sidebarOpen
    {
      activeModule := key;
      sidebarOpen := false;
    }

    method OpenSidebar()
      modifies this`sidebarOpen
      ensures sidebarOpen
    {
      sidebarOpen := true;
    }

    /** The overlay and the close button. */
    method CloseSidebar()
      modifies this`sidebarOpen
      ensures !sidebarOpen
    {
      sidebarOpen := false;
    }

    /** What is on screen now. */
    function Screen(): (r: Rendered)
      requires Valid()
      reads this
      ensures !r.NoModule?
      ensures activeModule == "jobdetail" ==> r == JobDetailPage(selectedJob) && selectedJob.Some?
    {
      ConsistentRendersSomething(activeModule, selectedJob);
      Render(activeModule, selectedJob)
    }
  }

  /** Viewing applications and coming back lands on the same job's detail page. */
  method ApplicationsRoundTrip(d: Dashboard, job: Job)
    requires d.Valid() && d.activeModule == "jobdetail"
    modifies d
    ensures d.Valid() && d.activeModule == "jobdetail" && d.selectedJob == Some(job)
    ensures d.Screen() == JobDetailPage(Some(job))
  {
    d.ViewApplications(job);
    d.BackFromApplications();
  }
}
