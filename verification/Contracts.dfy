/** Names shared across the operations modules (src/operations/contracts.ts), and the routing of each
  * Workstream to its accountable executive (src/operations/executive-role-router.ts).
  */
module Contracts {

  datatype Executive = COO | CTO | PersonalCFO | CAO | CMO
  datatype TrustDomain = Personal | MingCreatives | Academic | Entertainment | Finance
  datatype Workstream = PersonalLife | CareerJob | FinanceWork | AcademicWork | MicroSaaS | ContentCreation

  function RouteExecutive(workstream: Workstream): Executive {
    match workstream
    case PersonalLife => COO
    case CareerJob => COO
    case FinanceWork => PersonalCFO
    case AcademicWork => CAO
    case MicroSaaS => CTO
    case ContentCreation => CMO
  }
}
