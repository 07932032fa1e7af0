/**
 * The endpoint catalogue of the documentation page: ten lists of endpoint
 * descriptions, one per sub-section, each entry giving the HTTP method, the
 * path (with at most one `{name}` placeholder), a description and the URL,
 * query and body parameters. The notes and tip flags and the parameter
 * descriptions, which only the page text shows, are not part of the model.
 */
module Catalogue {
  datatype ParamSpec = ParamSpec(name: string, required: bool)

  datatype EndpointSpec = EndpointSpec(
    id: string,
    httpMethod: string,
    path: string,
    description: string,
    urlParams: seq<ParamSpec>,
    queryParams: seq<ParamSpec>,
    bodyParams: seq<ParamSpec>)

  function Names(ps: seq<ParamSpec>): (ns: seq<string>)
    ensures |ns| == |ps|
    ensures forall i :: 0 <= i < |ps| ==> ns[i] == ps[i].name
  {
    seq(|ps|, i requires 0 <= i < |ps| => ps[i].name)
  }

  predicate IsHttpMethod(m: string)
  {
    m == "GET" || m == "POST" || m == "PUT" || m == "DELETE"
  }

  /** The methods for which the builders send a JSON body. */
  predicate HasBody(m: string)
  {
    m == "POST" || m == "PUT"
  }

  predicate BraceFree(s: string)
  {
    '{' !in s && '}' !in s
  }

  /** `{name}`, the placeholder for URL parameter `name`. */
  function Placeholder(name: string): string
  {
    "{" + name + "}"
  }

  /**
   * The path's placeholders are exactly the URL parameters: either there are
   * none and no braces, or there is one required parameter and the path is
   * `a{name}b` with no other braces.
   */
  ghost predicate PlaceholdersDeclared(path: string, urlParams: seq<ParamSpec>)
  {
    (urlParams == [] && BraceFree(path)) ||
    (|urlParams| == 1 && urlParams[0].required && BraceFree(urlParams[0].name) &&
      exists a, b :: BraceFree(a) && BraceFree(b) && path == a + Placeholder(urlParams[0].name) + b)
  }

  ghost predicate WellFormed(e: EndpointSpec)
  {
    IsHttpMethod(e.httpMethod) &&
    (e.bodyParams != [] ==> HasBody(e.httpMethod)) &&
    PlaceholdersDeclared(e.path, e.urlParams)
  }

  predicate DistinctIds(es: seq<EndpointSpec>)
  {
    forall i, j :: 0 <= i < j < |es| ==> es[i].id != es[j].id
  }

  predicate IdsDisjoint(xs: seq<EndpointSpec>, ys: seq<EndpointSpec>)
  {
    forall i, j :: 0 <= i < |xs| && 0 <= j < |ys| ==> xs[i].id != ys[j].id
  }

  lemma Declares(path: string, a: string, name: string, b: string, urlParams: seq<ParamSpec>)
    requires path == a + Placeholder(name) + b
    requires BraceFree(a) && BraceFree(b) && BraceFree(name)
    requires urlParams == [ParamSpec(name, true)]
    ensures PlaceholdersDeclared(path, urlParams)
  {
  }

  // AssessmentEndpoints

  const GetAssessments := EndpointSpec("get-assessments", "GET", "/assessments",
    "Retrieve all assessments.",
    [], [ParamSpec("country", false)], [])

  const GetAssessmentMine := EndpointSpec("get-assessment-mine", "GET", "/assessments/mine/{id}",
    "Retrieve details for a specific assessment.",
    [ParamSpec("id", true)], [], [])

  const GetAssessmentNoauth := EndpointSpec("get-assessment-noauth", "GET", "/assessmentsnoauth/mine/",
    "Get assessment details for a fixed ID (ce62eb6o) for QR code.",
    [], [], [])

  const GetAssessmentMines := EndpointSpec("get-assessment-mines", "GET", "/assessments/mines/{id}",
    "Get assessment details for a specific mine ID for QR code.",
    [ParamSpec("id", true)], [], [])

  const AssessmentEndpoints: seq<EndpointSpec> := [
    GetAssessments, GetAssessmentMine, GetAssessmentNoauth, GetAssessmentMines
  ]

  // CompanyEndpoints

  const GetCompanies := EndpointSpec("get-companies", "GET", "/companies",
    "Retrieve all companies for the requesting dashboard.",
    [], [ParamSpec("country", false)], [])

  const GetCompaniesAll := EndpointSpec("get-companies-all", "GET", "/companies/all",
    "Retrieve all companies from both gold and 3ts platforms.",
    [], [], [])

  const GetCompany := EndpointSpec("get-company", "GET", "/companies/{id}",
    "Retrieve details for a specific company.",
    [ParamSpec("id", true)], [], [])

  const GetOwners := EndpointSpec("get-owners", "GET", "/owners/{id}",
    "Get beneficial owners details for a specific company.",
    [ParamSpec("id", true)], [], [])

  const GetShareholders := EndpointSpec("get-shareholders", "GET", "/shareholders/{id}",
    "Get shareholders details for a specific company.",
    [ParamSpec("id", true)], [], [])

  const GetDocuments := EndpointSpec("get-documents", "GET", "/documents/{id}",
    "Get documents for a specific company.",
    [ParamSpec("id", true)], [], [])

  const GetCompaniesNoauth := EndpointSpec("get-companies-noauth", "GET", "/companiesnoAuth/{id}",
    "Get specific company details for QR code.",
    [ParamSpec("id", true)], [], [])

  const GetOwnersNoauth := EndpointSpec("get-owners-noauth", "GET", "/ownersnoAuth/{id}",
    "Get beneficial owners details for QR code.",
    [ParamSpec("id", true)], [], [])

  const GetShareholdersNoauth := EndpointSpec("get-shareholders-noauth", "GET", "/shareholdersnoAuth/{id}",
    "Get shareholders details for QR code.",
    [ParamSpec("id", true)], [], [])

  const GetDocumentsNoauth := EndpointSpec("get-documents-noauth", "GET", "/documentsnoAuth/{id}",
    "Get documents for QR code.",
    [ParamSpec("id", true)], [], [])

  const GetCompaniesMine := EndpointSpec("get-companies-mine", "GET", "/companiesMine",
    "Get details for a specific mine-related company with fixed ID.",
    [], [], [])

  const GetOwnersMine := EndpointSpec("get-owners-mine", "GET", "/ownersMine",
    "Get beneficial owners for a specific mine-related company with fixed ID.",
    [], [], [])

  const GetShareholdersMine := EndpointSpec("get-shareholders-mine", "GET", "/shareholdersMine",
    "Get shareholders for a specific mine-related company with fixed ID.",
    [], [], [])

  const GetDocumentsMine := EndpointSpec("get-documents-mine", "GET", "/documentsMine",
    "Get documents for a specific mine-related company with fixed ID.",
    [], [], [])

  const CompanyEndpoints: seq<EndpointSpec> := [
    GetCompanies, GetCompaniesAll, GetCompany, GetOwners, GetShareholders, GetDocuments, GetCompaniesNoauth,
    GetOwnersNoauth, GetShareholdersNoauth, GetDocumentsNoauth, GetCompaniesMine, GetOwnersMine,
    GetShareholdersMine, GetDocumentsMine
  ]

  // ExportEndpoints

  const GetExports := EndpointSpec("get-exports", "GET", "/exports",
    "Get all exports for the authenticated user.",
    [], [ParamSpec("country", false)], [])

  const GetExportsNoauth := EndpointSpec("get-exports-noauth", "GET", "/exportsnoauth",
    "Get all exports for QR code.",
    [], [], [])

  const GetExport := EndpointSpec("get-export", "GET", "/exports/{id}",
    "Get specific export details for the authenticated user.",
    [ParamSpec("id", true)], [], [])

  const GetExportNoauth := EndpointSpec("get-export-noauth", "GET", "/exportnoauth/{id}",
    "Get specific export details for QR code.",
    [ParamSpec("id", true)], [], [])

  const GetTimeTracking := EndpointSpec("get-time-tracking", "GET", "/timeTracking",
    "Get time tracking information for a specific export.",
    [], [ParamSpec("id", true)], [])

  const UpdateTimeTracking := EndpointSpec("update-time-tracking", "PUT", "/timeTracking/update",
    "Update time tracking information for a specific export.",
    [], [], [ParamSpec("id", true)])

  const GetProgressbar := EndpointSpec("get-progressbar", "GET", "/progressbar",
    "Get progress information for a specific export.",
    [], [ParamSpec("id", true)], [])

  const ExportEndpoints: seq<EndpointSpec> := [
    GetExports, GetExportsNoauth, GetExport, GetExportNoauth, GetTimeTracking, UpdateTimeTracking,
    GetProgressbar
  ]

  // IncidentEndpoints

  const GetIncidents := EndpointSpec("get-incidents", "GET", "/incidents",
    "Get all incidents.",
    [], [ParamSpec("country", false)], [])

  const GetIncident := EndpointSpec("get-incident", "GET", "/incidents/{id}",
    "Get specific incident details.",
    [ParamSpec("id", true)], [], [])

  const GetIncidentsCompany := EndpointSpec("get-incidents-company", "GET", "/incidents/company/{id}",
    "Get all incidents for a specific company.",
    [ParamSpec("id", true)], [], [])

  const GetIncidentsMine := EndpointSpec("get-incidents-mine", "GET", "/incidents/mine/{id}",
    "Get all incidents for a specific mine.",
    [ParamSpec("id", true)], [], [])

  const GetIncidentsNoauthMine := EndpointSpec("get-incidents-noauth-mine", "GET", "/incidentsnoauth/mine/",
    "Get incidents for a specific mine for QR code using a fixed ID.",
    [], [], [])

  const IncidentEndpoints: seq<EndpointSpec> := [
    GetIncidents, GetIncident, GetIncidentsCompany, GetIncidentsMine, GetIncidentsNoauthMine
  ]

  // IntegrationEndpoints

  const GetMetalsApi := EndpointSpec("get-metals-api", "GET", "/metals-api",
    "Get TIN rates from MetalsAPI.",
    [], [], [])

  const GetMetalsApiYearly := EndpointSpec("get-metals-api-yearly", "GET", "/metals-api/yearly",
    "Get yearly metals data.",
    [], [], [])

  const PostOpenaiChat := EndpointSpec("post-openai-chat", "POST", "/openai-chat",
    "Interact with OpenAI(deepseek) chat service.",
    [], [], [ParamSpec("message", true)])

  const IntegrationEndpoints: seq<EndpointSpec> := [
    GetMetalsApi, GetMetalsApiYearly, PostOpenaiChat
  ]

  // MineEndpoints

  const GetMines := EndpointSpec("get-mines", "GET", "/mines",
    "Get all mines.",
    [], [], [])

  const GetMiners := EndpointSpec("get-miners", "GET", "/miners/{mine}",
    "Get all miners for a specific mine.",
    [ParamSpec("mine", true)], [], [])

  const GetMine := EndpointSpec("get-mine", "GET", "/mines/{id}",
    "Get specific mine details.",
    [ParamSpec("id", true)], [], [])

  const GetMineImages := EndpointSpec("get-mine-images", "GET", "/mines/images/{id}",
    "Get images for a specific mine.",
    [ParamSpec("id", true)], [], [])

  const GetMineVideos := EndpointSpec("get-mine-videos", "GET", "/mines/videos/{id}",
    "Get videos for a specific mine.",
    [ParamSpec("id", true)], [], [])

  const PostImage := EndpointSpec("post-image", "POST", "/image",
    "Get a specific image file.",
    [], [], [ParamSpec("file", true)])

  const GetMinesCompany := EndpointSpec("get-mines-company", "GET", "/mines/company/{id}",
    "Get mines for a specific company.",
    [ParamSpec("id", true)], [], [])

  const GetMinesNoauth := EndpointSpec("get-mines-noauth", "GET", "/minesnoauth",
    "Get mine details for QR code using a fixed ID.",
    [], [], [])

  const MineEndpoints: seq<EndpointSpec> := [
    GetMines, GetMiners, GetMine, GetMineImages, GetMineVideos, PostImage, GetMinesCompany, GetMinesNoauth
  ]

  // OverviewReportEndpoints

  const GetOverviewAssessments := EndpointSpec("get-overview-assessments", "GET", "/overview/assessments",
    "Get assessments counts for the past 6 months for overview reporting.",
    [], [ParamSpec("country", false)], [])

  const GetOverviewIncidents := EndpointSpec("get-overview-incidents", "GET", "/overview/incidents",
    "Get incidents counts for the past 6 months for overview reporting.",
    [], [ParamSpec("country", false)], [])

  const GetOverviewExports := EndpointSpec("get-overview-exports", "GET", "/overview/exports",
    "Get exports counts for the past 6 months for overview reporting.",
    [], [ParamSpec("country", false)], [])

  const GetOverviewRisks := EndpointSpec("get-overview-risks", "GET", "/overview/risks",
    "Get incidents risks counts for overview reporting.",
    [], [ParamSpec("country", false)], [])

  const OverviewReportEndpoints: seq<EndpointSpec> := [
    GetOverviewAssessments, GetOverviewIncidents, GetOverviewExports, GetOverviewRisks
  ]

  // PurchaseEndpoints

  const GetPurchases := EndpointSpec("get-purchases", "GET", "/purchases",
    "Get all purchases for the requesting user.",
    [], [], [])

  const GetReportDaily := EndpointSpec("get-report-daily", "GET", "/report/daily",
    "Get daily purchase report.",
    [], [], [])

  const GetReportMtd := EndpointSpec("get-report-mtd", "GET", "/report/mtd",
    "Get month-to-date balance report.",
    [], [], [])

  const GetReportDeliveries := EndpointSpec("get-report-deliveries", "GET", "/report/deliveries",
    "Get purchase deliveries report.",
    [], [], [])

  const PurchaseEndpoints: seq<EndpointSpec> := [
    GetPurchases, GetReportDaily, GetReportMtd, GetReportDeliveries
  ]

  // ReportingEndpoints

  const GetLogs := EndpointSpec("get-logs", "GET", "/logs",
    "Get all system logs. Requires user to be admin.",
    [], [], [])

  const GetAdminSelection := EndpointSpec("get-admin-selection", "GET", "/admin/{selection}",
    "Get specific admin overview report.",
    [ParamSpec("selection", true)], [], [])

  const GetSessions := EndpointSpec("get-sessions", "GET", "/sessions",
    "Get all user sessions. Requires user to be admin.",
    [], [], [])

  const GetReportDailyCountry := EndpointSpec("get-report-daily-country", "GET", "/report/daily",
    "Get daily report.",
    [], [ParamSpec("country", false)], [])

  const GetReportMtdCountry := EndpointSpec("get-report-mtd-country", "GET", "/report/mtd",
    "Get month-to-date balance report.",
    [], [ParamSpec("country", false)], [])

  const GetReportDeliveriesCountry := EndpointSpec("get-report-deliveries-country", "GET", "/report/deliveries",
    "Get purchase deliveries report.",
    [], [ParamSpec("country", false)], [])

  const GetReportTrace := EndpointSpec("get-report-trace", "GET", "/report/trace/{id}",
    "Get trace report for a specific company or entity.",
    [ParamSpec("id", true)], [ParamSpec("country", false)], [])

  const GetReportSales := EndpointSpec("get-report-sales", "GET", "/report/sales/{mineral}",
    "Get sales report for a specific mineral.",
    [ParamSpec("mineral", true)], [ParamSpec("country", false)], [])

  const GetReportSalesrange := EndpointSpec("get-report-salesrange", "GET", "/report/salesrange/{mineral}",
    "Get sales report for a specific mineral within a date range.",
    [ParamSpec("mineral", true)], [ParamSpec("country", false), ParamSpec("start_date", true), ParamSpec("end_date", true)], [])

  const GetReportMonthly := EndpointSpec("get-report-monthly", "GET", "/report/Monthly",
    "Get monthly report.",
    [], [ParamSpec("country", false)], [])

  const GetReportPurchaseMonthly := EndpointSpec("get-report-purchase-monthly", "GET", "/report/purchaseMonthly",
    "Get monthly purchase report.",
    [], [ParamSpec("country", false)], [])

  const GetReportSalestrend := EndpointSpec("get-report-salestrend", "GET", "/report/salestrend",
    "Get sales trend report.",
    [], [ParamSpec("country", false)], [])

  const GetReportTrendgraph := EndpointSpec("get-report-trendgraph", "GET", "/report/trendgraph/{id}",
    "Get trend graph for a specific entity.",
    [ParamSpec("id", true)], [ParamSpec("country", false)], [])

  const GetReportTrendgraphbyyear := EndpointSpec("get-report-trendgraphbyyear", "GET", "/report/trendgraphbyyear/{id}",
    "Get yearly trend graph for a specific entity.",
    [ParamSpec("id", true)], [ParamSpec("country", false), ParamSpec("year", true)], [])

  const ReportingEndpoints: seq<EndpointSpec> := [
    GetLogs, GetAdminSelection, GetSessions, GetReportDailyCountry, GetReportMtdCountry,
    GetReportDeliveriesCountry, GetReportTrace, GetReportSales, GetReportSalesrange, GetReportMonthly,
    GetReportPurchaseMonthly, GetReportSalestrend, GetReportTrendgraph, GetReportTrendgraphbyyear
  ]

  // UserManagementEndpoints

  const PostLogin := EndpointSpec("post-login", "POST", "/login",
    "Authenticate user and create valid session credentials.",
    [], [], [ParamSpec("email", true), ParamSpec("password", true)])

  const PostUsers := EndpointSpec("post-users", "POST", "/users",
    "Create a dashboard user account. Requires admin privileges.",
    [], [], [ParamSpec("name", true), ParamSpec("surname", true), ParamSpec("email", true), ParamSpec("password", true), ParamSpec("company", true), ParamSpec("type", true)])

  const DeleteUser := EndpointSpec("delete-user", "DELETE", "/users/{uid}",
    "Delete a user account. Requires admin privileges.",
    [ParamSpec("uid", true)], [], [])

  const UpdateUser := EndpointSpec("update-user", "PUT", "/users/{uid}",
    "Update a user account. Requires admin privileges.",
    [ParamSpec("uid", true)], [], [ParamSpec("name", true), ParamSpec("surname", true), ParamSpec("email", true), ParamSpec("access", true)])

  const UpdateUserStatus := EndpointSpec("update-user-status", "PUT", "/users/status/{uid}",
    "Update a user's status (activate/deactivate). Requires admin privileges.",
    [ParamSpec("uid", true)], [], [])

  const PostForgot := EndpointSpec("post-forgot", "POST", "/forgot",
    "Request a password reset.",
    [], [], [ParamSpec("email", true)])

  const PostPassword := EndpointSpec("post-password", "POST", "/password",
    "Change user password.",
    [], [], [ParamSpec("email", true), ParamSpec("password", true), ParamSpec("cpassword", true)])

  const DeleteSession := EndpointSpec("delete-session", "DELETE", "/sessions/{id}",
    "Terminate a specific session. Requires admin privileges.",
    [ParamSpec("id", true)], [], [])

  const DeleteAllSessions := EndpointSpec("delete-all-sessions", "DELETE", "/sessions",
    "Terminate all sessions. Requires admin privileges.",
    [], [], [])

  const GetUsersPlatform := EndpointSpec("get-users-platform", "GET", "/users/{platform}",
    "Get all users for a specific platform.",
    [ParamSpec("platform", true)], [], [])

  const UserManagementEndpoints: seq<EndpointSpec> := [
    PostLogin, PostUsers, DeleteUser, UpdateUser, UpdateUserStatus, PostForgot, PostPassword, DeleteSession,
    DeleteAllSessions, GetUsersPlatform
  ]

  /** The sub-sections of "API Endpoints", by the id their toggle uses, with their lists. */
  const Sections: seq<(string, seq<EndpointSpec>)> := [
    ("assessments", AssessmentEndpoints),
    ("companies", CompanyEndpoints),
    ("exports", ExportEndpoints),
    ("incidents", IncidentEndpoints),
    ("integrations", IntegrationEndpoints),
    ("mines", MineEndpoints),
    ("overview-reports", OverviewReportEndpoints),
    ("purchases", PurchaseEndpoints),
    ("reporting", ReportingEndpoints),
    ("user-management", UserManagementEndpoints)
  ]

  lemma GetAssessmentsWellFormed()
    ensures WellFormed(GetAssessments)
  {
    var p := GetAssessments.path;
    forall i | 0 <= i < |p| ensures p[i] != '{' && p[i] != '}' {}
  }

  lemma GetAssessmentMineWellFormed()
    ensures WellFormed(GetAssessmentMine)
  {
    Declares(GetAssessmentMine.path, "/assessments/mine/", "id", "", GetAssessmentMine.urlParams);
  }

  lemma GetAssessmentNoauthWellFormed()
    ensures WellFormed(GetAssessmentNoauth)
  {
    var p := GetAssessmentNoauth.path;
    forall i | 0 <= i < |p| ensures p[i] != '{' && p[i] != '}' {}
  }

  lemma GetAssessmentMinesWellFormed()
    ensures WellFormed(GetAssessmentMines)
  {
    Declares(GetAssessmentMines.path, "/assessments/mines/", "id", "", GetAssessmentMines.urlParams);
  }

  lemma GetCompaniesWellFormed()
    ensures WellFormed(GetCompanies)
  {
    var p := GetCompanies.path;
    forall i | 0 <= i < |p| ensures p[i] != '{' && p[i] != '}' {}
  }

  lemma GetCompaniesAllWellFormed()
    ensures WellFormed(GetCompaniesAll)
  {
    var p := GetCompaniesAll.path;
    forall i | 0 <= i < |p| ensures p[i] != '{' && p[i] != '}' {}
  }

  lemma GetCompanyWellFormed()
    ensures WellFormed(GetCompany)
  {
    Declares(GetCompany.path, "/companies/", "id", "", GetCompany.urlParams);
  }

  lemma GetOwnersWellFormed()
    ensures WellFormed(GetOwners)
  {
    Declares(GetOwners.path, "/owners/", "id", "", GetOwners.urlParams);
  }

  lemma GetShareholdersWellFormed()
    ensures WellFormed(GetShareholders)
  {
    Declares(GetShareholders.path, "/shareholders/", "id", "", GetShareholders.urlParams);
  }

  lemma GetDocumentsWellFormed()
    ensures WellFormed(GetDocuments)
  {
    Declares(GetDocuments.path, "/documents/", "id", "", GetDocuments.urlParams);
  }

  lemma GetCompaniesNoauthWellFormed()
    ensures WellFormed(GetCompaniesNoauth)
  {
    Declares(GetCompaniesNoauth.path, "/companiesnoAuth/", "id", "", GetCompaniesNoauth.urlParams);
  }

  lemma GetOwnersNoauthWellFormed()
    ensures WellFormed(GetOwnersNoauth)
  {
    Declares(GetOwnersNoauth.path, "/ownersnoAuth/", "id", "", GetOwnersNoauth.urlParams);
  }

  lemma GetShareholdersNoauthWellFormed()
    ensures WellFormed(GetShareholdersNoauth)
  {
    Declares(GetShareholdersNoauth.path, "/shareholdersnoAuth/", "id", "", GetShareholdersNoauth.urlParams);
  }

  lemma GetDocumentsNoauthWellFormed()
    ensures WellFormed(GetDocumentsNoauth)
  {
    Declares(GetDocumentsNoauth.path, "/documentsnoAuth/", "id", "", GetDocumentsNoauth.urlParams);
  }

  lemma GetCompaniesMineWellFormed()
    ensures WellFormed(GetCompaniesMine)
  {
    var p := GetCompaniesMine.path;
    forall i | 0 <= i < |p| ensures p[i] != '{' && p[i] != '}' {}
  }

  lemma GetOwnersMineWellFormed()
    ensures WellFormed(GetOwnersMine)
  {
    var p := GetOwnersMine.path;
    forall i | 0 <= i < |p| ensures p[i] != '{' && p[i] != '}' {}
  }

  lemma GetShareholdersMineWellFormed()
    ensures WellFormed(GetShareholdersMine)
  {
    var p := GetShareholdersMine.path;
    forall i | 0 <= i < |p| ensures p[i] != '{' && p[i] != '}' {}
  }

  lemma GetDocumentsMineWellFormed()
    ensures WellFormed(GetDocumentsMine)
  {
    var p := GetDocumentsMine.path;
    forall i | 0 <= i < |p| ensures p[i] != '{' && p[i] != '}' {}
  }

  lemma GetExportsWellFormed()
    ensures WellFormed(GetExports)
  {
    var p := GetExports.path;
    forall i | 0 <= i < |p| ensures p[i] != '{' && p[i] != '}' {}
  }

  lemma GetExportsNoauthWellFormed()
    ensures WellFormed(GetExportsNoauth)
  {
    var p := GetExportsNoauth.path;
    forall i | 0 <= i < |p| ensures p[i] != '{' && p[i] != '}' {}
  }

  lemma GetExportWellFormed()
    ensures WellFormed(GetExport)
  {
    Declares(GetExport.path, "/exports/", "id", "", GetExport.urlParams);
  }

  lemma GetExportNoauthWellFormed()
    ensures WellFormed(GetExportNoauth)
  {
    Declares(GetExportNoauth.path, "/exportnoauth/", "id", "", GetExportNoauth.urlParams);
  }

  lemma GetTimeTrackingWellFormed()
    ensures WellFormed(GetTimeTracking)
  {
    var p := GetTimeTracking.path;
    forall i | 0 <= i < |p| ensures p[i] != '{' && p[i] != '}' {}
  }

  lemma UpdateTimeTrackingWellFormed()
    ensures WellFormed(UpdateTimeTracking)
  {
    var p := UpdateTimeTracking.path;
    forall i | 0 <= i < |p| ensures p[i] != '{' && p[i] != '}' {}
  }

  lemma GetProgressbarWellFormed()
    ensures WellFormed(GetProgressbar)
  {
    var p := GetProgressbar.path;
    forall i | 0 <= i < |p| ensures p[i] != '{' && p[i] != '}' {}
  }

  lemma GetIncidentsWellFormed()
    ensures WellFormed(GetIncidents)
  {
    var p := GetIncidents.path;
    forall i | 0 <= i < |p| ensures p[i] != '{' && p[i] != '}' {}
  }

  lemma GetIncidentWellFormed()
    ensures WellFormed(GetIncident)
  {
    Declares(GetIncident.path, "/incidents/", "id", "", GetIncident.urlParams);
  }

  lemma GetIncidentsCompanyWellFormed()
    ensures WellFormed(GetIncidentsCompany)
  {
    Declares(GetIncidentsCompany.path, "/incidents/company/", "id", "", GetIncidentsCompany.urlParams);
  }

  lemma GetIncidentsMineWellFormed()
    ensures WellFormed(GetIncidentsMine)
  {
    Declares(GetIncidentsMine.path, "/incidents/mine/", "id", "", GetIncidentsMine.urlParams);
  }

  lemma GetIncidentsNoauthMineWellFormed()
    ensures WellFormed(GetIncidentsNoauthMine)
  {
    var p := GetIncidentsNoauthMine.path;
    forall i | 0 <= i < |p| ensures p[i] != '{' && p[i] != '}' {}
  }

  lemma GetMetalsApiWellFormed()
    ensures WellFormed(GetMetalsApi)
  {
    var p := GetMetalsApi.path;
    forall i | 0 <= i < |p| ensures p[i] != '{' && p[i] != '}' {}
  }

  lemma GetMetalsApiYearlyWellFormed()
    ensures WellFormed(GetMetalsApiYearly)
  {
    var p := GetMetalsApiYearly.path;
    forall i | 0 <= i < |p| ensures p[i] != '{' && p[i] != '}' {}
  }

  lemma PostOpenaiChatWellFormed()
    ensures WellFormed(PostOpenaiChat)
  {
    var p := PostOpenaiChat.path;
    forall i | 0 <= i < |p| ensures p[i] != '{' && p[i] != '}' {}
  }

  lemma GetMinesWellFormed()
    ensures WellFormed(GetMines)
  {
    var p := GetMines.path;
    forall i | 0 <= i < |p| ensures p[i] != '{' && p[i] != '}' {}
  }

  lemma GetMinersWellFormed()
    ensures WellFormed(GetMiners)
  {
    Declares(GetMiners.path, "/miners/", "mine", "", GetMiners.urlParams);
  }

  lemma GetMineWellFormed()
    ensures WellFormed(GetMine)
  {
    Declares(GetMine.path, "/mines/", "id", "", GetMine.urlParams);
  }

  lemma GetMineImagesWellFormed()
    ensures WellFormed(GetMineImages)
  {
    Declares(GetMineImages.path, "/mines/images/", "id", "", GetMineImages.urlParams);
  }

  lemma GetMineVideosWellFormed()
    ensures WellFormed(GetMineVideos)
  {
    Declares(GetMineVideos.path, "/mines/videos/", "id", "", GetMineVideos.urlParams);
  }

  lemma PostImageWellFormed()
    ensures WellFormed(PostImage)
  {
    var p := PostImage.path;
    forall i | 0 <= i < |p| ensures p[i] != '{' && p[i] != '}' {}
  }

  lemma GetMinesCompanyWellFormed()
    ensures WellFormed(GetMinesCompany)
  {
    Declares(GetMinesCompany.path, "/mines/company/", "id", "", GetMinesCompany.urlParams);
  }

  lemma GetMinesNoauthWellFormed()
    ensures WellFormed(GetMinesNoauth)
  {
    var p := GetMinesNoauth.path;
    forall i | 0 <= i < |p| ensures p[i] != '{' && p[i] != '}' {}
  }

  lemma GetOverviewAssessmentsWellFormed()
    ensures WellFormed(GetOverviewAssessments)
  {
    var p := GetOverviewAssessments.path;
    forall i | 0 <= i < |p| ensures p[i] != '{' && p[i] != '}' {}
  }

  lemma GetOverviewIncidentsWellFormed()
    ensures WellFormed(GetOverviewIncidents)
  {
    var p := GetOverviewIncidents.path;
    forall i | 0 <= i < |p| ensures p[i] != '{' && p[i] != '}' {}
  }

  lemma GetOverviewExportsWellFormed()
    ensures WellFormed(GetOverviewExports)
  {
    var p := GetOverviewExports.path;
    forall i | 0 <= i < |p| ensures p[i] != '{' && p[i] != '}' {}
  }

  lemma GetOverviewRisksWellFormed()
    ensures WellFormed(GetOverviewRisks)
  {
    var p := GetOverviewRisks.path;
    forall i | 0 <= i < |p| ensures p[i] != '{' && p[i] != '}' {}
  }

  lemma GetPurchasesWellFormed()
    ensures WellFormed(GetPurchases)
  {
    var p := GetPurchases.path;
    forall i | 0 <= i < |p| ensures p[i] != '{' && p[i] != '}' {}
  }

  lemma GetReportDailyWellFormed()
    ensures WellFormed(GetReportDaily)
  {
    var p := GetReportDaily.path;
    forall i | 0 <= i < |p| ensures p[i] != '{' && p[i] != '}' {}
  }

  lemma GetReportMtdWellFormed()
    ensures WellFormed(GetReportMtd)
  {
    var p := GetReportMtd.path;
    forall i | 0 <= i < |p| ensures p[i] != '{' && p[i] != '}' {}
  }

  lemma GetReportDeliveriesWellFormed()
    ensures WellFormed(GetReportDeliveries)
  {
    var p := GetReportDeliveries.path;
    forall i | 0 <= i < |p| ensures p[i] != '{' && p[i] != '}' {}
  }

  lemma GetLogsWellFormed()
    ensures WellFormed(GetLogs)
  {
    var p := GetLogs.path;
    forall i | 0 <= i < |p| ensures p[i] != '{' && p[i] != '}' {}
  }

  lemma GetAdminSelectionWellFormed()
    ensures WellFormed(GetAdminSelection)
  {
    Declares(GetAdminSelection.path, "/admin/", "selection", "", GetAdminSelection.urlParams);
  }

  lemma GetSessionsWellFormed()
    ensures WellFormed(GetSessions)
  {
    var p := GetSessions.path;
    forall i | 0 <= i < |p| ensures p[i] != '{' && p[i] != '}' {}
  }

  lemma GetReportDailyCountryWellFormed()
    ensures WellFormed(GetReportDailyCountry)
  {
    var p := GetReportDailyCountry.path;
    forall i | 0 <= i < |p| ensures p[i] != '{' && p[i] != '}' {}
  }

  lemma GetReportMtdCountryWellFormed()
    ensures WellFormed(GetReportMtdCountry)
  {
    var p := GetReportMtdCountry.path;
    forall i | 0 <= i < |p| ensures p[i] != '{' && p[i] != '}' {}
  }

  lemma GetReportDeliveriesCountryWellFormed()
    ensures WellFormed(GetReportDeliveriesCountry)
  {
    var p := GetReportDeliveriesCountry.path;
    forall i | 0 <= i < |p| ensures p[i] != '{' && p[i] != '}' {}
  }

  lemma GetReportTraceWellFormed()
    ensures WellFormed(GetReportTrace)
  {
    Declares(GetReportTrace.path, "/report/trace/", "id", "", GetReportTrace.urlParams);
  }

  lemma GetReportSalesWellFormed()
    ensures WellFormed(GetReportSales)
  {
    Declares(GetReportSales.path, "/report/sales/", "mineral", "", GetReportSales.urlParams);
  }

  lemma GetReportSalesrangeWellFormed()
    ensures WellFormed(GetReportSalesrange)
  {
    Declares(GetReportSalesrange.path, "/report/salesrange/", "mineral", "", GetReportSalesrange.urlParams);
  }

  lemma GetReportMonthlyWellFormed()
    ensures WellFormed(GetReportMonthly)
  {
    var p := GetReportMonthly.path;
    forall i | 0 <= i < |p| ensures p[i] != '{' && p[i] != '}' {}
  }

  lemma GetReportPurchaseMonthlyWellFormed()
    ensures WellFormed(GetReportPurchaseMonthly)
  {
    var p := GetReportPurchaseMonthly.path;
    forall i | 0 <= i < |p| ensures p[i] != '{' && p[i] != '}' {}
  }

  lemma GetReportSalestrendWellFormed()
    ensures WellFormed(GetReportSalestrend)
  {
    var p := GetReportSalestrend.path;
    forall i | 0 <= i < |p| ensures p[i] != '{' && p[i] != '}' {}
  }

  lemma GetReportTrendgraphWellFormed()
    ensures WellFormed(GetReportTrendgraph)
  {
    Declares(GetReportTrendgraph.path, "/report/trendgraph/", "id", "", GetReportTrendgraph.urlParams);
  }

  lemma GetReportTrendgraphbyyearWellFormed()
    ensures WellFormed(GetReportTrendgraphbyyear)
  {
    Declares(GetReportTrendgraphbyyear.path, "/report/trendgraphbyyear/", "id", "", GetReportTrendgraphbyyear.urlParams);
  }

  lemma PostLoginWellFormed()
    ensures WellFormed(PostLogin)
  {
    var p := PostLogin.path;
    forall i | 0 <= i < |p| ensures p[i] != '{' && p[i] != '}' {}
  }

  lemma PostUsersWellFormed()
    ensures WellFormed(PostUsers)
  {
    var p := PostUsers.path;
    forall i | 0 <= i < |p| ensures p[i] != '{' && p[i] != '}' {}
  }

  lemma DeleteUserWellFormed()
    ensures WellFormed(DeleteUser)
  {
    Declares(DeleteUser.path, "/users/", "uid", "", DeleteUser.urlParams);
  }

  lemma UpdateUserWellFormed()
    ensures WellFormed(UpdateUser)
  {
    Declares(UpdateUser.path, "/users/", "uid", "", UpdateUser.urlParams);
  }

  lemma UpdateUserStatusWellFormed()
    ensures WellFormed(UpdateUserStatus)
  {
    Declares(UpdateUserStatus.path, "/users/status/", "uid", "", UpdateUserStatus.urlParams);
  }

  lemma PostForgotWellFormed()
    ensures WellFormed(PostForgot)
  {
    var p := PostForgot.path;
    forall i | 0 <= i < |p| ensures p[i] != '{' && p[i] != '}' {}
  }

  lemma PostPasswordWellFormed()
    ensures WellFormed(PostPassword)
  {
    var p := PostPassword.path;
    forall i | 0 <= i < |p| ensures p[i] != '{' && p[i] != '}' {}
  }

  lemma DeleteSessionWellFormed()
    ensures WellFormed(DeleteSession)
  {
    Declares(DeleteSession.path, "/sessions/", "id", "", DeleteSession.urlParams);
  }

  lemma DeleteAllSessionsWellFormed()
    ensures WellFormed(DeleteAllSessions)
  {
    var p := DeleteAllSessions.path;
    forall i | 0 <= i < |p| ensures p[i] != '{' && p[i] != '}' {}
  }

  lemma GetUsersPlatformWellFormed()
    ensures WellFormed(GetUsersPlatform)
  {
    Declares(GetUsersPlatform.path, "/users/", "platform", "", GetUsersPlatform.urlParams);
  }

  lemma AssessmentEndpointsWellFormed()
    ensures forall e :: e in AssessmentEndpoints ==> WellFormed(e)
  {
    GetAssessmentsWellFormed();
    GetAssessmentMineWellFormed();
    GetAssessmentNoauthWellFormed();
    GetAssessmentMinesWellFormed();
  }

  lemma CompanyEndpointsWellFormed()
    ensures forall e :: e in CompanyEndpoints ==> WellFormed(e)
  {
    GetCompaniesWellFormed();
    GetCompaniesAllWellFormed();
    GetCompanyWellFormed();
    GetOwnersWellFormed();
    GetShareholdersWellFormed();
    GetDocumentsWellFormed();
    GetCompaniesNoauthWellFormed();
    GetOwnersNoauthWellFormed();
    GetShareholdersNoauthWellFormed();
    GetDocumentsNoauthWellFormed();
    GetCompaniesMineWellFormed();
    GetOwnersMineWellFormed();
    GetShareholdersMineWellFormed();
    GetDocumentsMineWellFormed();
  }

  lemma ExportEndpointsWellFormed()
    ensures forall e :: e in ExportEndpoints ==> WellFormed(e)
  {
    GetExportsWellFormed();
    GetExportsNoauthWellFormed();
    GetExportWellFormed();
    GetExportNoauthWellFormed();
    GetTimeTrackingWellFormed();
    UpdateTimeTrackingWellFormed();
    GetProgressbarWellFormed();
  }

  lemma IncidentEndpointsWellFormed()
    ensures forall e :: e in IncidentEndpoints ==> WellFormed(e)
  {
    GetIncidentsWellFormed();
    GetIncidentWellFormed();
    GetIncidentsCompanyWellFormed();
    GetIncidentsMineWellFormed();
    GetIncidentsNoauthMineWellFormed();
  }

  lemma IntegrationEndpointsWellFormed()
    ensures forall e :: e in IntegrationEndpoints ==> WellFormed(e)
  {
    GetMetalsApiWellFormed();
    GetMetalsApiYearlyWellFormed();
    PostOpenaiChatWellFormed();
  }

  lemma MineEndpointsWellFormed()
    ensures forall e :: e in MineEndpoints ==> WellFormed(e)
  {
    GetMinesWellFormed();
    GetMinersWellFormed();
    GetMineWellFormed();
    GetMineImagesWellFormed();
    GetMineVideosWellFormed();
    PostImageWellFormed();
    GetMinesCompanyWellFormed();
    GetMinesNoauthWellFormed();
  }

  lemma OverviewReportEndpointsWellFormed()
    ensures forall e :: e in OverviewReportEndpoints ==> WellFormed(e)
  {
    GetOverviewAssessmentsWellFormed();
    GetOverviewIncidentsWellFormed();
    GetOverviewExportsWellFormed();
    GetOverviewRisksWellFormed();
  }

  lemma PurchaseEndpointsWellFormed()
    ensures forall e :: e in PurchaseEndpoints ==> WellFormed(e)
  {
    GetPurchasesWellFormed();
    GetReportDailyWellFormed();
    GetReportMtdWellFormed();
    GetReportDeliveriesWellFormed();
  }

  lemma ReportingEndpointsWellFormed()
    ensures forall e :: e in ReportingEndpoints ==> WellFormed(e)
  {
    GetLogsWellFormed();
    GetAdminSelectionWellFormed();
    GetSessionsWellFormed();
    GetReportDailyCountryWellFormed();
    GetReportMtdCountryWellFormed();
    GetReportDeliveriesCountryWellFormed();
    GetReportTraceWellFormed();
    GetReportSalesWellFormed();
    GetReportSalesrangeWellFormed();
    GetReportMonthlyWellFormed();
    GetReportPurchaseMonthlyWellFormed();
    GetReportSalestrendWellFormed();
    GetReportTrendgraphWellFormed();
    GetReportTrendgraphbyyearWellFormed();
  }

  lemma UserManagementEndpointsWellFormed()
    ensures forall e :: e in UserManagementEndpoints ==> WellFormed(e)
  {
    PostLoginWellFormed();
    PostUsersWellFormed();
    DeleteUserWellFormed();
    UpdateUserWellFormed();
    UpdateUserStatusWellFormed();
    PostForgotWellFormed();
    PostPasswordWellFormed();
    DeleteSessionWellFormed();
    DeleteAllSessionsWellFormed();
    GetUsersPlatformWellFormed();
  }

  lemma AssessmentEndpointsDistinctIds()
    ensures DistinctIds(AssessmentEndpoints)
  {
  }

  lemma CompanyDistinctIds0()
    ensures forall i, j :: 0 <= i < 6 && i < j < |CompanyEndpoints| ==> CompanyEndpoints[i].id != CompanyEndpoints[j].id
  {
  }

  lemma CompanyDistinctIds6()
    ensures forall i, j :: 6 <= i < 12 && i < j < |CompanyEndpoints| ==> CompanyEndpoints[i].id != CompanyEndpoints[j].id
  {
  }

  lemma CompanyDistinctIds12()
    ensures forall i, j :: 12 <= i < 13 && i < j < |CompanyEndpoints| ==> CompanyEndpoints[i].id != CompanyEndpoints[j].id
  {
  }

  lemma CompanyEndpointsDistinctIds()
    ensures DistinctIds(CompanyEndpoints)
  {
    CompanyDistinctIds0();
    CompanyDistinctIds6();
    CompanyDistinctIds12();
  }

  lemma ExportDistinctIds0()
    ensures forall i, j :: 0 <= i < 6 && i < j < |ExportEndpoints| ==> ExportEndpoints[i].id != ExportEndpoints[j].id
  {
  }

  lemma ExportEndpointsDistinctIds()
    ensures DistinctIds(ExportEndpoints)
  {
    ExportDistinctIds0();
  }

  lemma IncidentEndpointsDistinctIds()
    ensures DistinctIds(IncidentEndpoints)
  {
  }

  lemma IntegrationEndpointsDistinctIds()
    ensures DistinctIds(IntegrationEndpoints)
  {
  }

  lemma MineDistinctIds0()
    ensures forall i, j :: 0 <= i < 6 && i < j < |MineEndpoints| ==> MineEndpoints[i].id != MineEndpoints[j].id
  {
  }

  lemma MineDistinctIds6()
    ensures forall i, j :: 6 <= i < 7 && i < j < |MineEndpoints| ==> MineEndpoints[i].id != MineEndpoints[j].id
  {
  }

  lemma MineEndpointsDistinctIds()
    ensures DistinctIds(MineEndpoints)
  {
    MineDistinctIds0();
    MineDistinctIds6();
  }

  lemma OverviewReportEndpointsDistinctIds()
    ensures DistinctIds(OverviewReportEndpoints)
  {
  }

  lemma PurchaseEndpointsDistinctIds()
    ensures DistinctIds(PurchaseEndpoints)
  {
  }

  lemma ReportingDistinctIds0()
    ensures forall i, j :: 0 <= i < 6 && i < j < |ReportingEndpoints| ==> ReportingEndpoints[i].id != ReportingEndpoints[j].id
  {
  }

  lemma ReportingDistinctIds6()
    ensures forall i, j :: 6 <= i < 12 && i < j < |ReportingEndpoints| ==> ReportingEndpoints[i].id != ReportingEndpoints[j].id
  {
  }

  lemma ReportingDistinctIds12()
    ensures forall i, j :: 12 <= i < 13 && i < j < |ReportingEndpoints| ==> ReportingEndpoints[i].id != ReportingEndpoints[j].id
  {
  }

  lemma ReportingEndpointsDistinctIds()
    ensures DistinctIds(ReportingEndpoints)
  {
    ReportingDistinctIds0();
    ReportingDistinctIds6();
    ReportingDistinctIds12();
  }

  lemma UserManagementDistinctIds0()
    ensures forall i, j :: 0 <= i < 6 && i < j < |UserManagementEndpoints| ==> UserManagementEndpoints[i].id != UserManagementEndpoints[j].id
  {
  }

  lemma UserManagementDistinctIds6()
    ensures forall i, j :: 6 <= i < 9 && i < j < |UserManagementEndpoints| ==> UserManagementEndpoints[i].id != UserManagementEndpoints[j].id
  {
  }

  lemma UserManagementEndpointsDistinctIds()
    ensures DistinctIds(UserManagementEndpoints)
  {
    UserManagementDistinctIds0();
    UserManagementDistinctIds6();
  }

  lemma AssessmentCompanyIds0()
    ensures forall i, j :: 0 <= i < 3 && 0 <= j < |CompanyEndpoints| ==> AssessmentEndpoints[i].id != CompanyEndpoints[j].id
  {
  }

  lemma AssessmentCompanyIds3()
    ensures forall i, j :: 3 <= i < 4 && 0 <= j < |CompanyEndpoints| ==> AssessmentEndpoints[i].id != CompanyEndpoints[j].id
  {
  }

  lemma AssessmentCompanyIds()
    ensures IdsDisjoint(AssessmentEndpoints, CompanyEndpoints)
  {
    AssessmentCompanyIds0();
    AssessmentCompanyIds3();
  }

  lemma AssessmentExportIds()
    ensures forall i, j :: 0 <= i < 4 && 0 <= j < |ExportEndpoints| ==> AssessmentEndpoints[i].id != ExportEndpoints[j].id
  {
  }

  lemma AssessmentIncidentIds()
    ensures forall i, j :: 0 <= i < 4 && 0 <= j < |IncidentEndpoints| ==> AssessmentEndpoints[i].id != IncidentEndpoints[j].id
  {
  }

  lemma AssessmentIntegrationIds()
    ensures forall i, j :: 0 <= i < 4 && 0 <= j < |IntegrationEndpoints| ==> AssessmentEndpoints[i].id != IntegrationEndpoints[j].id
  {
  }

  lemma AssessmentMineIds()
    ensures forall i, j :: 0 <= i < 4 && 0 <= j < |MineEndpoints| ==> AssessmentEndpoints[i].id != MineEndpoints[j].id
  {
  }

  lemma AssessmentOverviewReportIds()
    ensures forall i, j :: 0 <= i < 4 && 0 <= j < |OverviewReportEndpoints| ==> AssessmentEndpoints[i].id != OverviewReportEndpoints[j].id
  {
  }

  lemma AssessmentPurchaseIds()
    ensures forall i, j :: 0 <= i < 4 && 0 <= j < |PurchaseEndpoints| ==> AssessmentEndpoints[i].id != PurchaseEndpoints[j].id
  {
  }

  lemma AssessmentReportingIds0()
    ensures forall i, j :: 0 <= i < 3 && 0 <= j < |ReportingEndpoints| ==> AssessmentEndpoints[i].id != ReportingEndpoints[j].id
  {
  }

  lemma AssessmentReportingIds3()
    ensures forall i, j :: 3 <= i < 4 && 0 <= j < |ReportingEndpoints| ==> AssessmentEndpoints[i].id != ReportingEndpoints[j].id
  {
  }

  lemma AssessmentReportingIds()
    ensures IdsDisjoint(AssessmentEndpoints, ReportingEndpoints)
  {
    AssessmentReportingIds0();
    AssessmentReportingIds3();
  }

  lemma AssessmentUserManagementIds()
    ensures forall i, j :: 0 <= i < 4 && 0 <= j < |UserManagementEndpoints| ==> AssessmentEndpoints[i].id != UserManagementEndpoints[j].id
  {
  }

  lemma CompanyExportIds0()
    ensures forall i, j :: 0 <= i < 7 && 0 <= j < |ExportEndpoints| ==> CompanyEndpoints[i].id != ExportEndpoints[j].id
  {
  }

  lemma CompanyExportIds7()
    ensures forall i, j :: 7 <= i < 14 && 0 <= j < |ExportEndpoints| ==> CompanyEndpoints[i].id != ExportEndpoints[j].id
  {
  }

  lemma CompanyExportIds()
    ensures IdsDisjoint(CompanyEndpoints, ExportEndpoints)
  {
    CompanyExportIds0();
    CompanyExportIds7();
  }

  lemma CompanyIncidentIds0()
    ensures forall i, j :: 0 <= i < 10 && 0 <= j < |IncidentEndpoints| ==> CompanyEndpoints[i].id != IncidentEndpoints[j].id
  {
  }

  lemma CompanyIncidentIds10()
    ensures forall i, j :: 10 <= i < 14 && 0 <= j < |IncidentEndpoints| ==> CompanyEndpoints[i].id != IncidentEndpoints[j].id
  {
  }

  lemma CompanyIncidentIds()
    ensures IdsDisjoint(CompanyEndpoints, IncidentEndpoints)
  {
    CompanyIncidentIds0();
    CompanyIncidentIds10();
  }

  lemma CompanyIntegrationIds()
    ensures forall i, j :: 0 <= i < 14 && 0 <= j < |IntegrationEndpoints| ==> CompanyEndpoints[i].id != IntegrationEndpoints[j].id
  {
  }

  lemma CompanyMineIds0()
    ensures forall i, j :: 0 <= i < 6 && 0 <= j < |MineEndpoints| ==> CompanyEndpoints[i].id != MineEndpoints[j].id
  {
  }

  lemma CompanyMineIds6()
    ensures forall i, j :: 6 <= i < 12 && 0 <= j < |MineEndpoints| ==> CompanyEndpoints[i].id != MineEndpoints[j].id
  {
  }

  lemma CompanyMineIds12()
    ensures forall i, j :: 12 <= i < 14 && 0 <= j < |MineEndpoints| ==> CompanyEndpoints[i].id != MineEndpoints[j].id
  {
  }

  lemma CompanyMineIds()
    ensures IdsDisjoint(CompanyEndpoints, MineEndpoints)
  {
    CompanyMineIds0();
    CompanyMineIds6();
    CompanyMineIds12();
  }

  lemma CompanyOverviewReportIds0()
    ensures forall i, j :: 0 <= i < 12 && 0 <= j < |OverviewReportEndpoints| ==> CompanyEndpoints[i].id != OverviewReportEndpoints[j].id
  {
  }

  lemma CompanyOverviewReportIds12()
    ensures forall i, j :: 12 <= i < 14 && 0 <= j < |OverviewReportEndpoints| ==> CompanyEndpoints[i].id != OverviewReportEndpoints[j].id
  {
  }

  lemma CompanyOverviewReportIds()
    ensures IdsDisjoint(CompanyEndpoints, OverviewReportEndpoints)
  {
    CompanyOverviewReportIds0();
    CompanyOverviewReportIds12();
  }

  lemma CompanyPurchaseIds0()
    ensures forall i, j :: 0 <= i < 12 && 0 <= j < |PurchaseEndpoints| ==> CompanyEndpoints[i].id != PurchaseEndpoints[j].id
  {
  }

  lemma CompanyPurchaseIds12()
    ensures forall i, j :: 12 <= i < 14 && 0 <= j < |PurchaseEndpoints| ==> CompanyEndpoints[i].id != PurchaseEndpoints[j].id
  {
  }

  lemma CompanyPurchaseIds()
    ensures IdsDisjoint(CompanyEndpoints, PurchaseEndpoints)
  {
    CompanyPurchaseIds0();
    CompanyPurchaseIds12();
  }

  lemma CompanyReportingIds0()
    ensures forall i, j :: 0 <= i < 3 && 0 <= j < |ReportingEndpoints| ==> CompanyEndpoints[i].id != ReportingEndpoints[j].id
  {
  }

  lemma CompanyReportingIds3()
    ensures forall i, j :: 3 <= i < 6 && 0 <= j < |ReportingEndpoints| ==> CompanyEndpoints[i].id != ReportingEndpoints[j].id
  {
  }

  lemma CompanyReportingIds6()
    ensures forall i, j :: 6 <= i < 9 && 0 <= j < |ReportingEndpoints| ==> CompanyEndpoints[i].id != ReportingEndpoints[j].id
  {
  }

  lemma CompanyReportingIds9()
    ensures forall i, j :: 9 <= i < 12 && 0 <= j < |ReportingEndpoints| ==> CompanyEndpoints[i].id != ReportingEndpoints[j].id
  {
  }

  lemma CompanyReportingIds12()
    ensures forall i, j :: 12 <= i < 14 && 0 <= j < |ReportingEndpoints| ==> CompanyEndpoints[i].id != ReportingEndpoints[j].id
  {
  }

  lemma CompanyReportingIds()
    ensures IdsDisjoint(CompanyEndpoints, ReportingEndpoints)
  {
    CompanyReportingIds0();
    CompanyReportingIds3();
    CompanyReportingIds6();
    CompanyReportingIds9();
    CompanyReportingIds12();
  }

  lemma CompanyUserManagementIds0()
    ensures forall i, j :: 0 <= i < 5 && 0 <= j < |UserManagementEndpoints| ==> CompanyEndpoints[i].id != UserManagementEndpoints[j].id
  {
  }

  lemma CompanyUserManagementIds5()
    ensures forall i, j :: 5 <= i < 10 && 0 <= j < |UserManagementEndpoints| ==> CompanyEndpoints[i].id != UserManagementEndpoints[j].id
  {
  }

  lemma CompanyUserManagementIds10()
    ensures forall i, j :: 10 <= i < 14 && 0 <= j < |UserManagementEndpoints| ==> CompanyEndpoints[i].id != UserManagementEndpoints[j].id
  {
  }

  lemma CompanyUserManagementIds()
    ensures IdsDisjoint(CompanyEndpoints, UserManagementEndpoints)
  {
    CompanyUserManagementIds0();
    CompanyUserManagementIds5();
    CompanyUserManagementIds10();
  }

  lemma ExportIncidentIds()
    ensures forall i, j :: 0 <= i < 7 && 0 <= j < |IncidentEndpoints| ==> ExportEndpoints[i].id != IncidentEndpoints[j].id
  {
  }

  lemma ExportIntegrationIds()
    ensures forall i, j :: 0 <= i < 7 && 0 <= j < |IntegrationEndpoints| ==> ExportEndpoints[i].id != IntegrationEndpoints[j].id
  {
  }

  lemma ExportMineIds0()
    ensures forall i, j :: 0 <= i < 6 && 0 <= j < |MineEndpoints| ==> ExportEndpoints[i].id != MineEndpoints[j].id
  {
  }

  lemma ExportMineIds6()
    ensures forall i, j :: 6 <= i < 7 && 0 <= j < |MineEndpoints| ==> ExportEndpoints[i].id != MineEndpoints[j].id
  {
  }

  lemma ExportMineIds()
    ensures IdsDisjoint(ExportEndpoints, MineEndpoints)
  {
    ExportMineIds0();
    ExportMineIds6();
  }

  lemma ExportOverviewReportIds()
    ensures forall i, j :: 0 <= i < 7 && 0 <= j < |OverviewReportEndpoints| ==> ExportEndpoints[i].id != OverviewReportEndpoints[j].id
  {
  }

  lemma ExportPurchaseIds()
    ensures forall i, j :: 0 <= i < 7 && 0 <= j < |PurchaseEndpoints| ==> ExportEndpoints[i].id != PurchaseEndpoints[j].id
  {
  }

  lemma ExportReportingIds0()
    ensures forall i, j :: 0 <= i < 3 && 0 <= j < |ReportingEndpoints| ==> ExportEndpoints[i].id != ReportingEndpoints[j].id
  {
  }

  lemma ExportReportingIds3()
    ensures forall i, j :: 3 <= i < 6 && 0 <= j < |ReportingEndpoints| ==> ExportEndpoints[i].id != ReportingEndpoints[j].id
  {
  }

  lemma ExportReportingIds6()
    ensures forall i, j :: 6 <= i < 7 && 0 <= j < |ReportingEndpoints| ==> ExportEndpoints[i].id != ReportingEndpoints[j].id
  {
  }

  lemma ExportReportingIds()
    ensures IdsDisjoint(ExportEndpoints, ReportingEndpoints)
  {
    ExportReportingIds0();
    ExportReportingIds3();
    ExportReportingIds6();
  }

  lemma ExportUserManagementIds0()
    ensures forall i, j :: 0 <= i < 5 && 0 <= j < |UserManagementEndpoints| ==> ExportEndpoints[i].id != UserManagementEndpoints[j].id
  {
  }

  lemma ExportUserManagementIds5()
    ensures forall i, j :: 5 <= i < 7 && 0 <= j < |UserManagementEndpoints| ==> ExportEndpoints[i].id != UserManagementEndpoints[j].id
  {
  }

  lemma ExportUserManagementIds()
    ensures IdsDisjoint(ExportEndpoints, UserManagementEndpoints)
  {
    ExportUserManagementIds0();
    ExportUserManagementIds5();
  }

  lemma IncidentIntegrationIds()
    ensures forall i, j :: 0 <= i < 5 && 0 <= j < |IntegrationEndpoints| ==> IncidentEndpoints[i].id != IntegrationEndpoints[j].id
  {
  }

  lemma IncidentMineIds()
    ensures forall i, j :: 0 <= i < 5 && 0 <= j < |MineEndpoints| ==> IncidentEndpoints[i].id != MineEndpoints[j].id
  {
  }

  lemma IncidentOverviewReportIds()
    ensures forall i, j :: 0 <= i < 5 && 0 <= j < |OverviewReportEndpoints| ==> IncidentEndpoints[i].id != OverviewReportEndpoints[j].id
  {
  }

  lemma IncidentPurchaseIds()
    ensures forall i, j :: 0 <= i < 5 && 0 <= j < |PurchaseEndpoints| ==> IncidentEndpoints[i].id != PurchaseEndpoints[j].id
  {
  }

  lemma IncidentReportingIds0()
    ensures forall i, j :: 0 <= i < 3 && 0 <= j < |ReportingEndpoints| ==> IncidentEndpoints[i].id != ReportingEndpoints[j].id
  {
  }

  lemma IncidentReportingIds3()
    ensures forall i, j :: 3 <= i < 5 && 0 <= j < |ReportingEndpoints| ==> IncidentEndpoints[i].id != ReportingEndpoints[j].id
  {
  }

  lemma IncidentReportingIds()
    ensures IdsDisjoint(IncidentEndpoints, ReportingEndpoints)
  {
    IncidentReportingIds0();
    IncidentReportingIds3();
  }

  lemma IncidentUserManagementIds()
    ensures forall i, j :: 0 <= i < 5 && 0 <= j < |UserManagementEndpoints| ==> IncidentEndpoints[i].id != UserManagementEndpoints[j].id
  {
  }

  lemma IntegrationMineIds()
    ensures forall i, j :: 0 <= i < 3 && 0 <= j < |MineEndpoints| ==> IntegrationEndpoints[i].id != MineEndpoints[j].id
  {
  }

  lemma IntegrationOverviewReportIds()
    ensures forall i, j :: 0 <= i < 3 && 0 <= j < |OverviewReportEndpoints| ==> IntegrationEndpoints[i].id != OverviewReportEndpoints[j].id
  {
  }

  lemma IntegrationPurchaseIds()
    ensures forall i, j :: 0 <= i < 3 && 0 <= j < |PurchaseEndpoints| ==> IntegrationEndpoints[i].id != PurchaseEndpoints[j].id
  {
  }

  lemma IntegrationReportingIds()
    ensures forall i, j :: 0 <= i < 3 && 0 <= j < |ReportingEndpoints| ==> IntegrationEndpoints[i].id != ReportingEndpoints[j].id
  {
  }

  lemma IntegrationUserManagementIds()
    ensures forall i, j :: 0 <= i < 3 && 0 <= j < |UserManagementEndpoints| ==> IntegrationEndpoints[i].id != UserManagementEndpoints[j].id
  {
  }

  lemma MineOverviewReportIds()
    ensures forall i, j :: 0 <= i < 8 && 0 <= j < |OverviewReportEndpoints| ==> MineEndpoints[i].id != OverviewReportEndpoints[j].id
  {
  }

  lemma MinePurchaseIds()
    ensures forall i, j :: 0 <= i < 8 && 0 <= j < |PurchaseEndpoints| ==> MineEndpoints[i].id != PurchaseEndpoints[j].id
  {
  }

  lemma MineReportingIds0()
    ensures forall i, j :: 0 <= i < 3 && 0 <= j < |ReportingEndpoints| ==> MineEndpoints[i].id != ReportingEndpoints[j].id
  {
  }

  lemma MineReportingIds3()
    ensures forall i, j :: 3 <= i < 6 && 0 <= j < |ReportingEndpoints| ==> MineEndpoints[i].id != ReportingEndpoints[j].id
  {
  }

  lemma MineReportingIds6()
    ensures forall i, j :: 6 <= i < 8 && 0 <= j < |ReportingEndpoints| ==> MineEndpoints[i].id != ReportingEndpoints[j].id
  {
  }

  lemma MineReportingIds()
    ensures IdsDisjoint(MineEndpoints, ReportingEndpoints)
  {
    MineReportingIds0();
    MineReportingIds3();
    MineReportingIds6();
  }

  lemma MineUserManagementIds0()
    ensures forall i, j :: 0 <= i < 5 && 0 <= j < |UserManagementEndpoints| ==> MineEndpoints[i].id != UserManagementEndpoints[j].id
  {
  }

  lemma MineUserManagementIds5()
    ensures forall i, j :: 5 <= i < 8 && 0 <= j < |UserManagementEndpoints| ==> MineEndpoints[i].id != UserManagementEndpoints[j].id
  {
  }

  lemma MineUserManagementIds()
    ensures IdsDisjoint(MineEndpoints, UserManagementEndpoints)
  {
    MineUserManagementIds0();
    MineUserManagementIds5();
  }

  lemma OverviewReportPurchaseIds()
    ensures forall i, j :: 0 <= i < 4 && 0 <= j < |PurchaseEndpoints| ==> OverviewReportEndpoints[i].id != PurchaseEndpoints[j].id
  {
  }

  lemma OverviewReportReportingIds0()
    ensures forall i, j :: 0 <= i < 3 && 0 <= j < |ReportingEndpoints| ==> OverviewReportEndpoints[i].id != ReportingEndpoints[j].id
  {
  }

  lemma OverviewReportReportingIds3()
    ensures forall i, j :: 3 <= i < 4 && 0 <= j < |ReportingEndpoints| ==> OverviewReportEndpoints[i].id != ReportingEndpoints[j].id
  {
  }

  lemma OverviewReportReportingIds()
    ensures IdsDisjoint(OverviewReportEndpoints, ReportingEndpoints)
  {
    OverviewReportReportingIds0();
    OverviewReportReportingIds3();
  }

  lemma OverviewReportUserManagementIds()
    ensures forall i, j :: 0 <= i < 4 && 0 <= j < |UserManagementEndpoints| ==> OverviewReportEndpoints[i].id != UserManagementEndpoints[j].id
  {
  }

  lemma PurchaseReportingIds0()
    ensures forall i, j :: 0 <= i < 3 && 0 <= j < |ReportingEndpoints| ==> PurchaseEndpoints[i].id != ReportingEndpoints[j].id
  {
  }

  lemma PurchaseReportingIds3()
    ensures forall i, j :: 3 <= i < 4 && 0 <= j < |ReportingEndpoints| ==> PurchaseEndpoints[i].id != ReportingEndpoints[j].id
  {
  }

  lemma PurchaseReportingIds()
    ensures IdsDisjoint(PurchaseEndpoints, ReportingEndpoints)
  {
    PurchaseReportingIds0();
    PurchaseReportingIds3();
  }

  lemma PurchaseUserManagementIds()
    ensures forall i, j :: 0 <= i < 4 && 0 <= j < |UserManagementEndpoints| ==> PurchaseEndpoints[i].id != UserManagementEndpoints[j].id
  {
  }

  lemma ReportingUserManagementIds0()
    ensures forall i, j :: 0 <= i < 5 && 0 <= j < |UserManagementEndpoints| ==> ReportingEndpoints[i].id != UserManagementEndpoints[j].id
  {
  }

  lemma ReportingUserManagementIds5()
    ensures forall i, j :: 5 <= i < 10 && 0 <= j < |UserManagementEndpoints| ==> ReportingEndpoints[i].id != UserManagementEndpoints[j].id
  {
  }

  lemma ReportingUserManagementIds10()
    ensures forall i, j :: 10 <= i < 14 && 0 <= j < |UserManagementEndpoints| ==> ReportingEndpoints[i].id != UserManagementEndpoints[j].id
  {
  }

  lemma ReportingUserManagementIds()
    ensures IdsDisjoint(ReportingEndpoints, UserManagementEndpoints)
  {
    ReportingUserManagementIds0();
    ReportingUserManagementIds5();
    ReportingUserManagementIds10();
  }

  /** No id is shared by two sub-sections. */
  lemma SectionsIdsDisjoint()
    ensures forall c, d :: 0 <= c < d < |Sections| ==> IdsDisjoint(Sections[c].1, Sections[d].1)
  {
    AssessmentCompanyIds();
    AssessmentExportIds();
    AssessmentIncidentIds();
    AssessmentIntegrationIds();
    AssessmentMineIds();
    AssessmentOverviewReportIds();
    AssessmentPurchaseIds();
    AssessmentReportingIds();
    AssessmentUserManagementIds();
    CompanyExportIds();
    CompanyIncidentIds();
    CompanyIntegrationIds();
    CompanyMineIds();
    CompanyOverviewReportIds();
    CompanyPurchaseIds();
    CompanyReportingIds();
    CompanyUserManagementIds();
    ExportIncidentIds();
    ExportIntegrationIds();
    ExportMineIds();
    ExportOverviewReportIds();
    ExportPurchaseIds();
    ExportReportingIds();
    ExportUserManagementIds();
    IncidentIntegrationIds();
    IncidentMineIds();
    IncidentOverviewReportIds();
    IncidentPurchaseIds();
    IncidentReportingIds();
    IncidentUserManagementIds();
    IntegrationMineIds();
    IntegrationOverviewReportIds();
    IntegrationPurchaseIds();
    IntegrationReportingIds();
    IntegrationUserManagementIds();
    MineOverviewReportIds();
    MinePurchaseIds();
    MineReportingIds();
    MineUserManagementIds();
    OverviewReportPurchaseIds();
    OverviewReportReportingIds();
    OverviewReportUserManagementIds();
    PurchaseReportingIds();
    PurchaseUserManagementIds();
    ReportingUserManagementIds();
  }

  /**
   * The whole catalogue: every entry is well formed, and no two entries,
   * in the same sub-section or in different ones, share an id.
   */
  lemma CatalogueWellFormed()
    ensures forall c, e :: 0 <= c < |Sections| && e in Sections[c].1 ==> WellFormed(e)
    ensures forall c :: 0 <= c < |Sections| ==> DistinctIds(Sections[c].1)
    ensures forall c, d :: 0 <= c < d < |Sections| ==> IdsDisjoint(Sections[c].1, Sections[d].1)
  {
    AssessmentEndpointsWellFormed();
    CompanyEndpointsWellFormed();
    ExportEndpointsWellFormed();
    IncidentEndpointsWellFormed();
    IntegrationEndpointsWellFormed();
    MineEndpointsWellFormed();
    OverviewReportEndpointsWellFormed();
    PurchaseEndpointsWellFormed();
    ReportingEndpointsWellFormed();
    UserManagementEndpointsWellFormed();
    AssessmentEndpointsDistinctIds();
    CompanyEndpointsDistinctIds();
    ExportEndpointsDistinctIds();
    IncidentEndpointsDistinctIds();
    IntegrationEndpointsDistinctIds();
    MineEndpointsDistinctIds();
    OverviewReportEndpointsDistinctIds();
    PurchaseEndpointsDistinctIds();
    ReportingEndpointsDistinctIds();
    UserManagementEndpointsDistinctIds();
    SectionsIdsDisjoint();
  }
}
