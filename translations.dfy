/**
 * The interface language: two fixed translation tables, the lookup `t` that
 * falls back to the key itself, the rule that picks the language at start-up
 * from the stored preference, and `setLanguage`.
 */
module Translations {
  import opened Wrappers
  import opened JsStrings
  import opened Lists
  import Jobs

  datatype Language = English | Polish

  // The tables keep the source's grouping into commented sections. Each
  // section is a lookup from key to entry: `None` is JavaScript's
  // `undefined` for a key the section does not list.

  function EnglishNavigation(key: string): Option<string> {
    match key
    case "nav.dashboard" => Some("Dashboard")
    case "nav.jobs" => Some("Jobs")
    case "nav.candidates" => Some("Candidates")
    case "nav.aiTools" => Some("AI Tools")
    case "nav.profile" => Some("My Profile")
    case "nav.settings" => Some("Settings")
    case "nav.logout" => Some("Logout")
    case "nav.login" => Some("Login")
    case _ => None
  }

  function EnglishDashboard(key: string): Option<string> {
    match key
    case "dashboard.title" => Some("Dashboard")
    case "dashboard.totalJobs" => Some("Total Jobs")
    case "dashboard.totalCandidates" => Some("Total Candidates")
    case "dashboard.activeApplications" => Some("Active Applications")
    case "dashboard.hiringPipeline" => Some("Hiring Pipeline")
    case "dashboard.applicationTrends" => Some("Application Trends")
    case "dashboard.recentActivity" => Some("Recent Activity")
    case "dashboard.applied" => Some("Applied")
    case "dashboard.screening" => Some("Screening")
    case "dashboard.interviewing" => Some("Interviewing")
    case "dashboard.offered" => Some("Offered")
    case "dashboard.hired" => Some("Hired")
    case _ => None
  }

  function EnglishJobs(key: string): Option<string> {
    match key
    case "jobs.title" => Some("Jobs")
    case "jobs.search" => Some("Search jobs...")
    case "jobs.filter" => Some("Filter")
    case "jobs.allDepartments" => Some("All Departments")
    case "jobs.allStatus" => Some("All Status")
    case "jobs.createJob" => Some("Create Job")
    case "jobs.active" => Some("Active")
    case "jobs.closed" => Some("Closed")
    case "jobs.draft" => Some("Draft")
    case "jobs.applicants" => Some("applicants")
    case "jobs.viewDetails" => Some("View Details")
    case "jobs.manage" => Some("Manage")
    case "jobs.createNew" => Some("+ Create New Job")
    case "jobs.resetDefaults" => Some("Reset to Defaults")
    case "jobs.jobTitle" => Some("Job Title")
    case "jobs.department" => Some("Department")
    case "jobs.location" => Some("Location")
    case "jobs.jobType" => Some("Job Type")
    case "jobs.description" => Some("Description")
    case "jobs.save" => Some("Create Job")
    case "jobs.cancel" => Some("Cancel")
    case "jobs.manageJob" => Some("Manage Job")
    case "jobs.deactivate" => Some("Deactivate Job")
    case "jobs.activate" => Some("Activate Job")
    case "jobs.viewFull" => Some("View Full Details")
    case "jobs.delete" => Some("Delete Job")
    case "jobs.confirmDelete" => Some("Are you sure you want to delete")
    case "jobs.close" => Some("Close")
    case _ => None
  }

  function EnglishCandidates(key: string): Option<string> {
    match key
    case "candidates.title" => Some("Candidates")
    case "candidates.search" => Some("Search candidates...")
    case "candidates.addCandidate" => Some("Add Candidate")
    case "candidates.name" => Some("Name")
    case "candidates.email" => Some("Email")
    case "candidates.position" => Some("Position")
    case "candidates.skills" => Some("Skills")
    case "candidates.aiScore" => Some("AI Score")
    case "candidates.status" => Some("Status")
    case "candidates.actions" => Some("Actions")
    case "candidates.view" => Some("View")
    case "candidates.edit" => Some("Edit")
    case _ => None
  }

  function EnglishAITools(key: string): Option<string> {
    match key
    case "ai.title" => Some("AI Tools")
    case "ai.resumeParser" => Some("Resume Parser")
    case "ai.resumeDesc" => Some("Upload a resume and extract structured information using AI")
    case "ai.selectFile" => Some("Select Resume File")
    case "ai.parseResume" => Some("Parse Resume")
    case "ai.processing" => Some("Processing...")
    case "ai.candidateMatching" => Some("Candidate Matching")
    case "ai.matchingDesc" => Some("Match candidates to job positions using AI algorithms")
    case "ai.algorithm" => Some("Algorithm")
    case "ai.dataSource" => Some("Data Source")
    case "ai.startMatching" => Some("Start Matching")
    case "ai.analyzing" => Some("Analyzing...")
    case _ => None
  }

  function EnglishProfile(key: string): Option<string> {
    match key
    case "profile.title" => Some("My Profile")
    case "profile.profileInfo" => Some("Profile Information")
    case "profile.editProfile" => Some("Edit Profile")
    case "profile.save" => Some("Save")
    case "profile.cancel" => Some("Cancel")
    case "profile.fullName" => Some("Full Name")
    case "profile.role" => Some("Role")
    case "profile.phone" => Some("Phone")
    case "profile.department" => Some("Department")
    case "profile.activityStats" => Some("Activity Statistics")
    case "profile.jobsPosted" => Some("Jobs Posted")
    case "profile.candidatesReviewed" => Some("Candidates Reviewed")
    case "profile.hiresMade" => Some("Hires Made")
    case _ => None
  }

  function EnglishSettings(key: string): Option<string> {
    match key
    case "settings.title" => Some("Settings")
    case "settings.appearance" => Some("Appearance")
    case "settings.darkMode" => Some("Dark Mode")
    case "settings.darkModeDesc" => Some("Toggle between light and dark theme")
    case "settings.language" => Some("Language")
    case "settings.notifications" => Some("Notifications")
    case "settings.emailNotif" => Some("Email Notifications")
    case "settings.emailNotifDesc" => Some("Receive email updates about new candidates")
    case "settings.pushNotif" => Some("Push Notifications")
    case "settings.pushNotifDesc" => Some("Get real-time updates in the app")
    case "settings.weeklyReports" => Some("Weekly Reports")
    case "settings.weeklyReportsDesc" => Some("Receive weekly activity summaries")
    case "settings.account" => Some("Account")
    case "settings.changePassword" => Some("Change Password")
    case "settings.changePasswordDesc" => Some("Update your account password")
    case "settings.privacy" => Some("Privacy Settings")
    case "settings.privacyDesc" => Some("Manage your privacy preferences")
    case "settings.deleteAccount" => Some("Delete Account")
    case "settings.deleteAccountDesc" => Some("Permanently delete your account and data")
    case "settings.saveSettings" => Some("Save All Settings")
    case _ => None
  }

  function EnglishLogin(key: string): Option<string> {
    match key
    case "login.welcome" => Some("Welcome Back")
    case "login.signIn" => Some("Sign in to your account")
    case "login.email" => Some("Email Address")
    case "login.password" => Some("Password")
    case "login.signInButton" => Some("Sign In")
    case "login.demo" => Some("Demo Credentials:")
    case _ => None
  }

  function EnglishHomePage(key: string): Option<string> {
    match key
    case "home.title" => Some("AI-Powered")
    case "home.recruitment" => Some("Recruitment")
    case "home.subtitle" => Some("Transform your hiring process with artificial intelligence. Parse resumes instantly, match candidates intelligently, and make data-driven hiring decisions.")
    case "home.getStarted" => Some("Get Started")
    case "home.explore" => Some("Explore AI Tools")
    case _ => None
  }

  function PolishNavigation(key: string): Option<string> {
    match key
    case "nav.dashboard" => Some("Panel")
    case "nav.jobs" => Some("Oferty Pracy")
    case "nav.candidates" => Some("Kandydaci")
    case "nav.aiTools" => Some("Narzędzia AI")
    case "nav.profile" => Some("Mój Profil")
    case "nav.settings" => Some("Ustawienia")
    case "nav.logout" => Some("Wyloguj")
    case "nav.login" => Some("Zaloguj")
    case _ => None
  }

  function PolishDashboard(key: string): Option<string> {
    match key
    case "dashboard.title" => Some("Panel")
    case "dashboard.totalJobs" => Some("Wszystkie Oferty")
    case "dashboard.totalCandidates" => Some("Wszyscy Kandydaci")
    case "dashboard.activeApplications" => Some("Aktywne Aplikacje")
    case "dashboard.hiringPipeline" => Some("Pipeline Rekrutacji")
    case "dashboard.applicationTrends" => Some("Trendy Aplikacji")
    case "dashboard.recentActivity" => Some("Ostatnia Aktywność")
    case "dashboard.applied" => Some("Aplikowano")
    case "dashboard.screening" => Some("Selekcja")
    case "dashboard.interviewing" => Some("Rozmowy")
    case "dashboard.offered" => Some("Oferta")
    case "dashboard.hired" => Some("Zatrudniony")
    case _ => None
  }

  function PolishJobs(key: string): Option<string> {
    match key
    case "jobs.title" => Some("Oferty Pracy")
    case "jobs.search" => Some("Szukaj ofert...")
    case "jobs.filter" => Some("Filtruj")
    case "jobs.allDepartments" => Some("Wszystkie Działy")
    case "jobs.allStatus" => Some("Wszystkie Statusy")
    case "jobs.createJob" => Some("Utwórz Ofertę")
    case "jobs.active" => Some("Aktywna")
    case "jobs.closed" => Some("Zamknięta")
    case "jobs.draft" => Some("Szkic")
    case "jobs.applicants" => Some("kandydatów")
    case "jobs.viewDetails" => Some("Zobacz Szczegóły")
    case "jobs.manage" => Some("Zarządzaj")
    case "jobs.createNew" => Some("+ Utwórz Nową Ofertę")
    case "jobs.resetDefaults" => Some("Przywróć Domyślne")
    case "jobs.jobTitle" => Some("Tytuł Stanowiska")
    case "jobs.department" => Some("Dział")
    case "jobs.location" => Some("Lokalizacja")
    case "jobs.jobType" => Some("Typ Zatrudnienia")
    case "jobs.description" => Some("Opis")
    case "jobs.save" => Some("Utwórz Ofertę")
    case "jobs.cancel" => Some("Anuluj")
    case "jobs.manageJob" => Some("Zarządzaj Ofertą")
    case "jobs.deactivate" => Some("Dezaktywuj Ofertę")
    case "jobs.activate" => Some("Aktywuj Ofertę")
    case "jobs.viewFull" => Some("Zobacz Pełne Szczegóły")
    case "jobs.delete" => Some("Usuń Ofertę")
    case "jobs.confirmDelete" => Some("Czy na pewno chcesz usunąć")
    case "jobs.close" => Some("Zamknij")
    case _ => None
  }

  function PolishCandidates(key: string): Option<string> {
    match key
    case "candidates.title" => Some("Kandydaci")
    case "candidates.search" => Some("Szukaj kandydatów...")
    case "candidates.addCandidate" => Some("Dodaj Kandydata")
    case "candidates.name" => Some("Imię i Nazwisko")
    case "candidates.email" => Some("Email")
    case "candidates.position" => Some("Stanowisko")
    case "candidates.skills" => Some("Umiejętności")
    case "candidates.aiScore" => Some("Wynik AI")
    case "candidates.status" => Some("Status")
    case "candidates.actions" => Some("Akcje")
    case "candidates.view" => Some("Zobacz")
    case "candidates.edit" => Some("Edytuj")
    case _ => None
  }

  function PolishAITools(key: string): Option<string> {
    match key
    case "ai.title" => Some("Narzędzia AI")
    case "ai.resumeParser" => Some("Parser CV")
    case "ai.resumeDesc" => Some("Prześlij CV i wyodrębnij ustrukturyzowane informacje za pomocą AI")
    case "ai.selectFile" => Some("Wybierz Plik CV")
    case "ai.parseResume" => Some("Parsuj CV")
    case "ai.processing" => Some("Przetwarzanie...")
    case "ai.candidateMatching" => Some("Dopasowanie Kandydatów")
    case "ai.matchingDesc" => Some("Dopasuj kandydatów do stanowisk za pomocą algorytmów AI")
    case "ai.algorithm" => Some("Algorytm")
    case "ai.dataSource" => Some("Źródło Danych")
    case "ai.startMatching" => Some("Rozpocznij Dopasowanie")
    case "ai.analyzing" => Some("Analizowanie...")
    case _ => None
  }

  function PolishProfile(key: string): Option<string> {
    match key
    case "profile.title" => Some("Mój Profil")
    case "profile.profileInfo" => Some("Informacje Profilowe")
    case "profile.editProfile" => Some("Edytuj Profil")
    case "profile.save" => Some("Zapisz")
    case "profile.cancel" => Some("Anuluj")
    case "profile.fullName" => Some("Imię i Nazwisko")
    case "profile.role" => Some("Rola")
    case "profile.phone" => Some("Telefon")
    case "profile.department" => Some("Dział")
    case "profile.activityStats" => Some("Statystyki Aktywności")
    case "profile.jobsPosted" => Some("Opublikowane Oferty")
    case "profile.candidatesReviewed" => Some("Przejrzani Kandydaci")
    case "profile.hiresMade" => Some("Zatrudnienia")
    case _ => None
  }

  function PolishSettings(key: string): Option<string> {
    match key
    case "settings.title" => Some("Ustawienia")
    case "settings.appearance" => Some("Wygląd")
    case "settings.darkMode" => Some("Tryb Ciemny")
    case "settings.darkModeDesc" => Some("Przełącz między jasnym a ciemnym motywem")
    case "settings.language" => Some("Język")
    case "settings.notifications" => Some("Powiadomienia")
    case "settings.emailNotif" => Some("Powiadomienia E-mail")
    case "settings.emailNotifDesc" => Some("Otrzymuj aktualizacje e-mail o nowych kandydatach")
    case "settings.pushNotif" => Some("Powiadomienia Push")
    case "settings.pushNotifDesc" => Some("Otrzymuj aktualizacje w czasie rzeczywistym w aplikacji")
    case "settings.weeklyReports" => Some("Raporty Tygodniowe")
    case "settings.weeklyReportsDesc" => Some("Otrzymuj cotygodniowe podsumowania aktywności")
    case "settings.account" => Some("Konto")
    case "settings.changePassword" => Some("Zmień Hasło")
    case "settings.changePasswordDesc" => Some("Zaktualizuj hasło do konta")
    case "settings.privacy" => Some("Ustawienia Prywatności")
    case "settings.privacyDesc" => Some("Zarządzaj swoimi preferencjami prywatności")
    case "settings.deleteAccount" => Some("Usuń Konto")
    case "settings.deleteAccountDesc" => Some("Trwale usuń swoje konto i dane")
    case "settings.saveSettings" => Some("Zapisz Wszystkie Ustawienia")
    case _ => None
  }

  function PolishLogin(key: string): Option<string> {
    match key
    case "login.welcome" => Some("Witaj Ponownie")
    case "login.signIn" => Some("Zaloguj się na swoje konto")
    case "login.email" => Some("Adres Email")
    case "login.password" => Some("Hasło")
    case "login.signInButton" => Some("Zaloguj Się")
    case "login.demo" => Some("Dane Demo:")
    case _ => None
  }

  function PolishHomePage(key: string): Option<string> {
    match key
    case "home.title" => Some("Zasilane AI")
    case "home.recruitment" => Some("Rekrutacja")
    case "home.subtitle" => Some("Przekształć swój proces rekrutacji dzięki sztucznej inteligencji. Parsuj CV natychmiast, inteligentnie dopasowuj kandydatów i podejmuj decyzje oparte na danych.")
    case "home.getStarted" => Some("Rozpocznij")
    case "home.explore" => Some("Poznaj Narzędzia AI")
    case _ => None
  }

  /**
   * `translations.English[key]`. In an object literal a later entry overrides
   * an earlier one with the same key, so the sections are consulted from
   * the last back to the first.
   */
  function EnglishEntry(key: string): Option<string> {
    EnglishHomePage(key)
      .Or(EnglishLogin(key))
      .Or(EnglishSettings(key))
      .Or(EnglishProfile(key))
      .Or(EnglishAITools(key))
      .Or(EnglishCandidates(key))
      .Or(EnglishJobs(key))
      .Or(EnglishDashboard(key))
      .Or(EnglishNavigation(key))
  }

  /**
   * `translations.Polish[key]`. In an object literal a later entry overrides
   * an earlier one with the same key, so the sections are consulted from
   * the last back to the first.
   */
  function PolishEntry(key: string): Option<string> {
    PolishHomePage(key)
      .Or(PolishLogin(key))
      .Or(PolishSettings(key))
      .Or(PolishProfile(key))
      .Or(PolishAITools(key))
      .Or(PolishCandidates(key))
      .Or(PolishJobs(key))
      .Or(PolishDashboard(key))
      .Or(PolishNavigation(key))
  }

  function Entry(language: Language, key: string): Option<string> {
    match language
    case English => EnglishEntry(key)
    case Polish => PolishEntry(key)
  }

  /** `t(key)`, that is `dict[key] || key`: the entry when there is a non-empty one, otherwise the key itself. */
  function Translate(language: Language, key: string): (r: string)
    ensures Truthy(Entry(language, key)) ==> r == Entry(language, key).value
    ensures !Truthy(Entry(language, key)) ==> r == key
  {
    OrElse(Entry(language, key), key)
  }

  /** The language at start-up: Polish exactly when the stored preference is the string 'Polish'. */
  function InitialLanguage(saved: Option<string>): (l: Language)
    ensures l == Polish <==> saved == Some("Polish")
    ensures l == English <==> saved != Some("Polish")
  {
    if saved == Some("Polish") then Polish else English
  }

  /** The provider's state: the current language, from which `t` reads. */
  class LanguageContext {
    var language: Language

    constructor (saved: Option<string>)
      ensures language == InitialLanguage(saved)
    {
      language := InitialLanguage(saved);
    }

    /** `t(key)` in the current language: that language's entry, or the key. */
    function T(key: string): (r: string)
      reads this
      ensures Truthy(Entry(language, key)) ==> r == Entry(language, key).value
      ensures !Truthy(Entry(language, key)) ==> r == key
    {
      Translate(language, key)
    }

    method SetLanguage(l: Language)
      modifies this
      ensures language == l
      ensures forall key :: T(key) == Translate(l, key)
    {
      language := l;
    }
  }

  // ---------------------------------------------------------------- the tables

  lemma NavigationSameKeys(key: string)
    ensures EnglishNavigation(key).Some? <==> PolishNavigation(key).Some?
  {
  }

  lemma DashboardSameKeys(key: string)
    ensures EnglishDashboard(key).Some? <==> PolishDashboard(key).Some?
  {
  }

  lemma JobsSameKeys(key: string)
    ensures EnglishJobs(key).Some? <==> PolishJobs(key).Some?
  {
  }

  lemma CandidatesSameKeys(key: string)
    ensures EnglishCandidates(key).Some? <==> PolishCandidates(key).Some?
  {
  }

  lemma AIToolsSameKeys(key: string)
    ensures EnglishAITools(key).Some? <==> PolishAITools(key).Some?
  {
  }

  lemma ProfileSameKeys(key: string)
    ensures EnglishProfile(key).Some? <==> PolishProfile(key).Some?
  {
  }

  lemma SettingsSameKeys(key: string)
    ensures EnglishSettings(key).Some? <==> PolishSettings(key).Some?
  {
  }

  lemma LoginSameKeys(key: string)
    ensures EnglishLogin(key).Some? <==> PolishLogin(key).Some?
  {
  }

  lemma HomePageSameKeys(key: string)
    ensures EnglishHomePage(key).Some? <==> PolishHomePage(key).Some?
  {
  }

  /** Both tables list the same keys: a key has an English entry exactly when it has a Polish one. */
  lemma SameKeys(key: string)
    ensures Entry(English, key).Some? <==> Entry(Polish, key).Some?
  {
    NavigationSameKeys(key);
    DashboardSameKeys(key);
    JobsSameKeys(key);
    CandidatesSameKeys(key);
    AIToolsSameKeys(key);
    ProfileSameKeys(key);
    SettingsSameKeys(key);
    LoginSameKeys(key);
    HomePageSameKeys(key);
  }

  /** A key neither table lists, such as 'settings.saved', comes back unchanged in either language. */
  lemma UnlistedKeyUnchanged(language: Language)
    ensures Entry(language, "settings.saved") == None
    ensures Translate(language, "settings.saved") == "settings.saved"
  {
    if language == English {
      EnglishUnlistedKey();
    } else {
      PolishUnlistedKey();
    }
  }

  lemma EnglishUnlistedKey()
    ensures EnglishEntry("settings.saved") == None
  {
    EnglishUnlistedEarlySections();
    EnglishUnlistedLateSections();
  }

  lemma EnglishUnlistedEarlySections()
    ensures var k := "settings.saved";
      EnglishNavigation(k) == None && EnglishDashboard(k) == None && EnglishJobs(k) == None && EnglishCandidates(k) == None
  {
  }

  lemma EnglishUnlistedLateSections()
    ensures var k := "settings.saved";
      EnglishAITools(k) == None && EnglishProfile(k) == None && EnglishSettings(k) == None
      && EnglishLogin(k) == None && EnglishHomePage(k) == None
  {
  }

  lemma PolishUnlistedKey()
    ensures PolishEntry("settings.saved") == None
  {
    PolishUnlistedEarlySections();
    PolishUnlistedLateSections();
  }

  lemma PolishUnlistedEarlySections()
    ensures var k := "settings.saved";
      PolishNavigation(k) == None && PolishDashboard(k) == None && PolishJobs(k) == None && PolishCandidates(k) == None
  {
  }

  lemma PolishUnlistedLateSections()
    ensures var k := "settings.saved";
      PolishAITools(k) == None && PolishProfile(k) == None && PolishSettings(k) == None
      && PolishLogin(k) == None && PolishHomePage(k) == None
  {
  }

  /**
   * There is no fallback from one table to the other: where the entries
   * differ, each language gets its own.
   */
  lemma NoFallbackBetweenLanguages()
    ensures Translate(Polish, "jobs.active") == "Aktywna"
    ensures Translate(English, "jobs.active") == "Active"
  {
    ActiveEntries();
  }

  // ---------------------------------------------------------------- the job status select

  /**
   * The entries of the three status options. Each key is looked up through
   * every later section first, so these are proved one key at a time.
   */
  lemma AllStatusEntries()
    ensures EnglishEntry("jobs.allStatus") == Some("All Status")
    ensures PolishEntry("jobs.allStatus") == Some("Wszystkie Statusy")
  {
    EnglishAllStatusEntry();
    PolishAllStatusEntry();
  }

  lemma EnglishAllStatusEntry()
    ensures EnglishEntry("jobs.allStatus") == Some("All Status")
  {
  }

  lemma PolishAllStatusEntry()
    ensures PolishEntry("jobs.allStatus") == Some("Wszystkie Statusy")
  {
  }

  lemma ActiveEntries()
    ensures EnglishEntry("jobs.active") == Some("Active")
    ensures PolishEntry("jobs.active") == Some("Aktywna")
  {
    EnglishActiveEntry();
    PolishActiveEntry();
  }

  lemma EnglishActiveEntry()
    ensures EnglishEntry("jobs.active") == Some("Active")
  {
  }

  lemma PolishActiveEntry()
    ensures PolishEntry("jobs.active") == Some("Aktywna")
  {
  }

  lemma DraftEntries()
    ensures EnglishEntry("jobs.draft") == Some("Draft")
    ensures PolishEntry("jobs.draft") == Some("Szkic")
  {
    EnglishDraftEntry();
    PolishDraftEntry();
  }

  lemma EnglishDraftEntry()
    ensures EnglishEntry("jobs.draft") == Some("Draft")
  {
  }

  lemma PolishDraftEntry()
    ensures PolishEntry("jobs.draft") == Some("Szkic")
  {
  }

  /**
   * The status select's options carry no `value`, so each emits its
   * translated text. In English those are exactly the page's filter values.
   */
  lemma EnglishStatusOptionsMatchFilter()
    ensures Translate(English, "jobs.allStatus") == Jobs.AllStatus
    ensures Translate(English, "jobs.active") == "Active"
    ensures Translate(English, "jobs.draft") == "Draft"
  {
    AllStatusEntries();
    ActiveEntries();
    DraftEntries();
  }

  /** A status filter that is neither the sentinel nor 'Active' nor 'Draft' hides every default job. */
  lemma ForeignStatusHidesDefaultJobs(term: string, departmentFilter: string, statusFilter: string)
    requires statusFilter != Jobs.AllStatus && statusFilter != "Active" && statusFilter != "Draft"
    ensures Jobs.FilteredJobs(Jobs.DefaultJobs, term, departmentFilter, statusFilter) == []
  {
    var js := Jobs.DefaultJobs;
    forall i | 0 <= i < |js|
      ensures !Jobs.PassesFilters(js[i], term, departmentFilter, statusFilter)
    {
      assert js[i].status == "Active" || js[i].status == "Draft";
    }
    FilterNone(js, (j: Jobs.Job) => Jobs.PassesFilters(j, term, departmentFilter, statusFilter));
  }

  /**
   * In Polish the options emit 'Wszystkie Statusy', 'Aktywna' and 'Szkic',
   * none of which is the sentinel or a job status, so choosing any of them
   * hides every default job.
   */
  lemma PolishStatusOptionsHideDefaultJobs(option: string)
    requires option == "jobs.allStatus" || option == "jobs.active" || option == "jobs.draft"
    ensures Jobs.FilteredJobs(Jobs.DefaultJobs, "", Jobs.AllDepartments, Translate(Polish, option)) == []
  {
    AllStatusEntries();
    ActiveEntries();
    DraftEntries();
    ForeignStatusHidesDefaultJobs("", Jobs.AllDepartments, Translate(Polish, option));
  }
}
