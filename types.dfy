/** The record shapes of types.ts that the modelled views exchange, and the shape of an
    awaited foreign call (an SDK request, a `fetch`, a storage read): it either resolves
    with a value or rejects with an error whose `message` may be empty. */
module Types {
  import opened Wrappers

  datatype Platform =
    | Zapier | N8n | Langchain | Make | Pipedream | GoogleSheets | Airtable | Shopify | OpenAI | Anthropic

  /** The string literal each platform is written as. */
  function PlatformId(p: Platform): string {
    match p
    case Zapier => "zapier"
    case N8n => "n8n"
    case Langchain => "langchain"
    case Make => "make"
    case Pipedream => "pipedream"
    case GoogleSheets => "google-sheets"
    case Airtable => "airtable"
    case Shopify => "shopify"
    case OpenAI => "openai"
    case Anthropic => "anthropic"
  }

  datatype StepType = Trigger | Action | Logic

  datatype AutomationStep = AutomationStep(id: int, title: string, description: string, stepType: StepType)

  /** An `AutomationResult`; `sources` and `documentation` are carried opaquely in `extra`. */
  datatype AutomationResult = AutomationResult(
    platform: Platform,
    steps: seq<AutomationStep>,
    codeSnippet: Option<string>,
    explanation: string,
    timestamp: Option<int>,
    extra: Option<string>)

  /** A `SavedBlueprint`: an automation result plus the vault's id, name and version. */
  datatype SavedBlueprint = SavedBlueprint(result: AutomationResult, id: string, name: string, version: string)

  datatype Role = User | Model

  datatype ChatMessage = ChatMessage(id: string, role: Role, content: string, timestamp: int)

  datatype EntryType = Command | Response | Error | Info

  datatype TerminalEntry = TerminalEntry(id: string, entryType: EntryType, content: string, timestamp: int)

  datatype ApiError = ApiError(message: string)

  /** `AsyncState<T>`: the data, loading flag and error a view keeps around one call. */
  datatype AsyncState<T> = AsyncState(data: Option<T>, loading: bool, error: Option<ApiError>)

  /** How an awaited foreign call settled. */
  datatype Outcome<T> = Resolved(value: T) | Rejected(message: string)

  /** `err.message || fallback`: an empty message is falsy. */
  function MessageOr(message: string, fallback: string): string {
    if message != "" then message else fallback
  }
}
