// The records the extension keeps in chrome.storage.local, as the code sees
// them: a field may be missing, a string, or some other JavaScript value, and
// the validators distinguish exactly those cases.

module Records {
  import opened Seqs

  /**
   * A JavaScript property value as far as the code inspects it: absent
   * (undefined), a string, or any other value. Another value is known by
   * which value it is (`ident`), so that two of them are equal exactly when
   * `===` holds between them, and by its truthiness, the only other thing
   * the code asks of it.
   */
  datatype Field = Absent | Str(s: string) | Other(ident: int, truthy: bool)

  /** JavaScript truthiness: the empty string is falsy. */
  predicate Truthy(f: Field)
  {
    match f
    case Absent => false
    case Str(s) => s != ""
    case Other(_, t) => t
  }

  /** The negation of the guard `!x || typeof x !== 'string'`: a non-empty string. */
  predicate IsText(f: Field)
  {
    f.Str? && f.s != ""
  }

  /** The string inside a field, or "" when it holds none. */
  function StrOf(f: Field): string
  {
    if f.Str? then f.s else ""
  }

  /** A value that `Array.isArray` accepts, or anything else. */
  datatype Arr<T> = NotArray | JsArray(items: seq<T>)

  /**
   * `Number(priority)` of a stored selector: unset (undefined), a number, or
   * NaN. Fractional priorities are not modelled.
   */
  datatype Priority = Unset | Num(n: int) | NaN

  /** A timestamp in milliseconds; 0 stands for an absent or falsy value. */
  type Millis = nat

  datatype Prompt = Prompt(id: Field, title: Field, content: Field, created: Millis, updated: Millis)

  datatype Chain = Chain(id: Field, title: Field, steps: Arr<Field>, created: Millis, updated: Millis)

  datatype Selector = Selector(id: Field, domainPattern: Field, cssSelector: Field, priority: Priority)

  function PromptKey(p: Prompt): Field { p.id }
  function ChainKey(c: Chain): Field { c.id }
  function SelectorKey(s: Selector): Field { s.id }

  /** The record `{ id, currentStep }` stored under `currentChain`: a chain and the step reached. */
  datatype ChainCursor = ChainCursor(chainId: Field, currentStep: nat)

  /** What the content script answers to an `insertText` message. */
  datatype Delivery =
    | Delivered(success: bool)
    | NoReceiver     // "Could not establish connection": no content script in the tab
    | SendError      // any other failure of chrome.tabs.sendMessage

  /** The error codes the extension raises (the `code` of its errors). */
  datatype Failure =
    | PromptValidationError | ChainValidationError | InvalidChainSteps
    | InvalidPromptId | PromptNotFound | InvalidChainId | ChainNotFound
    | InvalidSearchQuery | InvalidSelectors | SelectorValidationError | InvalidImportData
    | EmptyChain | FirstStepNotFound | NoTab | NoActiveTab | InsertFailed | ConnectionFailed
    | MessagingFailed | InvalidStep | StepPromptNotFound
    | MissingTitle | MissingContent | NoPromptsCreated | TypeError
  {
    function Code(): string
    {
      match this
      case PromptValidationError => "PROMPT_VALIDATION_ERROR"
      case ChainValidationError => "CHAIN_VALIDATION_ERROR"
      case InvalidChainSteps => "INVALID_CHAIN_STEPS"
      case InvalidPromptId => "INVALID_PROMPT_ID"
      case PromptNotFound => "PROMPT_NOT_FOUND"
      case InvalidChainId => "INVALID_CHAIN_ID"
      case ChainNotFound => "CHAIN_NOT_FOUND"
      case InvalidSearchQuery => "INVALID_SEARCH_QUERY"
      case InvalidSelectors => "INVALID_SELECTORS"
      case SelectorValidationError => "SELECTOR_VALIDATION_ERROR"
      case InvalidImportData => "INVALID_IMPORT_DATA"
      case EmptyChain => "EMPTY_CHAIN"
      case FirstStepNotFound => "FIRST_STEP_NOT_FOUND"
      case NoTab => "NO_TAB"
      case NoActiveTab => "NO_ACTIVE_TAB"
      case InsertFailed => "INSERT_FAILED"
      case ConnectionFailed => "CONNECTION_FAILED"
      case MessagingFailed => ""   // the messaging error is rethrown as it is, without a code
      case InvalidStep => "INVALID_STEP"
      case StepPromptNotFound => "STEP_PROMPT_NOT_FOUND"
      case MissingTitle => "MISSING_TITLE"
      case MissingContent => "MISSING_CONTENT"
      case NoPromptsCreated => "NO_PROMPTS_CREATED"
      case TypeError => ""         // a JavaScript TypeError carries no code
    }
  }

  datatype Result<T> = Ok(value: T) | Err(error: Failure)
}
