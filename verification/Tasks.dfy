/** Task specifications as strings on the wire: parsing, naming, and the plan a worker makes of them. */
module Tasks {
  import opened Records
  import opened Text

  datatype Result<+T, +E> = Ok(value: T) | Err(error: E)

  datatype TaskType = Single | Cascaded

  datatype TaskPrompt =
    | Caption
    | DetailedCaption
    | MoreDetailedCaption
    | ObjectDetection
    | DenseRegionCaption
    | RegionProposal
    | CaptionToPhraseGrounding
    | ReferringExpressionSegmentation
    | RegionToSegmentation
    | OpenVocabularyDetection
    | RegionToCategory
    | RegionToDescription
    | Ocr
    | OcrWithRegion
    | CaptionGrounding
    | DetailedCaptionGrounding
    | MoreDetailedCaptionGrounding

  datatype TaskSpec = TaskSpec(taskType: TaskType, taskPrompt: TaskPrompt, textInput: Option<string>)

  datatype TaskSpecError =
    | UnsupportedTaskType(name: string)
    | UnsupportedTaskPrompt(taskType: TaskType, name: string)

  const SINGLE_TASK_PROMPTS := [
    Caption, DetailedCaption, MoreDetailedCaption, ObjectDetection, DenseRegionCaption, RegionProposal,
    CaptionToPhraseGrounding, ReferringExpressionSegmentation, RegionToSegmentation, OpenVocabularyDetection,
    RegionToCategory, RegionToDescription, Ocr, OcrWithRegion]

  const CASCADED_TASK_PROMPTS := [CaptionGrounding, DetailedCaptionGrounding, MoreDetailedCaptionGrounding]

  function Prompts(taskType: TaskType): seq<TaskPrompt> {
    if taskType.Single? then SINGLE_TASK_PROMPTS else CASCADED_TASK_PROMPTS
  }

  predicate ForCascade(prompt: TaskPrompt) {
    prompt.CaptionGrounding? || prompt.DetailedCaptionGrounding? || prompt.MoreDetailedCaptionGrounding?
  }

  /** The wire value keeps the original misspelling. */
  function TypeName(taskType: TaskType): string {
    if taskType.Single? then "Single task" else "Cascased task"
  }

  function PromptName(prompt: TaskPrompt): string {
    match prompt
    case Caption => "Caption"
    case DetailedCaption => "Detailed Caption"
    case MoreDetailedCaption => "More Detailed Caption"
    case ObjectDetection => "Object Detection"
    case DenseRegionCaption => "Dense Region Caption"
    case RegionProposal => "Region Proposal"
    case CaptionToPhraseGrounding => "Caption to Phrase Grounding"
    case ReferringExpressionSegmentation => "Referring Expression Segmentation"
    case RegionToSegmentation => "Region to Segmentation"
    case OpenVocabularyDetection => "Open Vocabulary Detection"
    case RegionToCategory => "Region to Category"
    case RegionToDescription => "Region to Description"
    case Ocr => "OCR"
    case OcrWithRegion => "OCR with Region"
    case CaptionGrounding => "Caption + Grounding"
    case DetailedCaptionGrounding => "Detailed Caption + Grounding"
    case MoreDetailedCaptionGrounding => "More Detailed Caption + Grounding"
  }

  // ----- parsing -----

  function ParseType(value: string): Result<TaskType, TaskSpecError> {
    var name := Trim(value);
    if name == "Single task" then Ok(Single)
    else if name == "Cascased task" || name == "Cascaded task" then Ok(Cascaded)
    else Err(UnsupportedTaskType(name))
  }

  /** The first prompt of a table with this name. */
  function FindPrompt(prompts: seq<TaskPrompt>, name: string): (found: Option<TaskPrompt>)
    ensures found.Some? ==> found.value in prompts && PromptName(found.value) == name
    ensures found.None? ==> forall prompt :: prompt in prompts ==> PromptName(prompt) != name
  {
    if prompts == [] then None
    else if PromptName(prompts[0]) == name then Some(prompts[0])
    else FindPrompt(prompts[1..], name)
  }

  function ParsePrompt(taskType: TaskType, value: string): Result<TaskPrompt, TaskSpecError> {
    match FindPrompt(Prompts(taskType), Trim(value))
    case Some(prompt) => Ok(prompt)
    case None => Err(UnsupportedTaskPrompt(taskType, Trim(value)))
  }

  function NormalizeOptionalText(text: Option<string>): Option<string> {
    if text.Some? && Trim(text.value) != [] then Some(Trim(text.value)) else None
  }

  function NewSpec(taskType: TaskType, prompt: TaskPrompt, text: Option<string>): Result<TaskSpec, TaskSpecError> {
    if prompt !in Prompts(taskType) then Err(UnsupportedTaskPrompt(taskType, PromptName(prompt)))
    else Ok(TaskSpec(taskType, prompt, text))
  }

  function ParseTypeOrDefault(taskType: Option<string>): Result<TaskType, TaskSpecError> {
    if taskType.Some? then ParseType(taskType.value) else Ok(Single)
  }

  function ParsePromptOrDefault(t: TaskType, taskPrompt: Option<string>): Result<TaskPrompt, TaskSpecError> {
    if taskPrompt.Some? then ParsePrompt(t, taskPrompt.value) else Ok(Caption)
  }

  /** A missing type means a single task; a missing prompt means a caption, whatever the type. */
  function FromStrings(taskType: Option<string>, taskPrompt: Option<string>, text: Option<string>)
    : Result<TaskSpec, TaskSpecError>
  {
    match ParseTypeOrDefault(taskType)
    case Err(error) => Err(error)
    case Ok(t) =>
      match ParsePromptOrDefault(t, taskPrompt)
      case Err(error) => Err(error)
      case Ok(p) => NewSpec(t, p, NormalizeOptionalText(text))
  }

  // ----- names determine prompts -----

  function NameLength(prompt: TaskPrompt): nat {
    match prompt
    case Caption => 7
    case DetailedCaption => 16
    case MoreDetailedCaption => 21
    case ObjectDetection => 16
    case DenseRegionCaption => 20
    case RegionProposal => 15
    case CaptionToPhraseGrounding => 27
    case ReferringExpressionSegmentation => 33
    case RegionToSegmentation => 22
    case OpenVocabularyDetection => 25
    case RegionToCategory => 18
    case RegionToDescription => 21
    case Ocr => 3
    case OcrWithRegion => 15
    case CaptionGrounding => 19
    case DetailedCaptionGrounding => 28
    case MoreDetailedCaptionGrounding => 33
  }

  lemma NameShape(prompt: TaskPrompt)
    ensures |PromptName(prompt)| == NameLength(prompt)
    ensures Trimmed(PromptName(prompt))
  {
  }

  /** No two prompts share a name. */
  lemma NamesDistinct(a: TaskPrompt, b: TaskPrompt)
    requires PromptName(a) == PromptName(b)
    ensures a == b
  {
    NameShape(a);
    NameShape(b);
    assert PromptName(a)[0] == PromptName(b)[0];
  }

  lemma PromptsByType(prompt: TaskPrompt)
    ensures prompt in Prompts(Cascaded) <==> ForCascade(prompt)
    ensures prompt in Prompts(Single) <==> !ForCascade(prompt)
  {
    if !ForCascade(prompt) {
      InSingle(prompt);
    }
  }

  lemma InSingle(prompt: TaskPrompt)
    requires !ForCascade(prompt)
    ensures prompt in SINGLE_TASK_PROMPTS
  {
  }

  lemma ParsePromptName(taskType: TaskType, prompt: TaskPrompt)
    requires prompt in Prompts(taskType)
    ensures ParsePrompt(taskType, PromptName(prompt)) == Ok(prompt)
  {
    NameShape(prompt);
    TrimTrimmed(PromptName(prompt));
    var found := FindPrompt(Prompts(taskType), PromptName(prompt));
    NamesDistinct(found.value, prompt);
  }

  lemma ParseTypeName(taskType: TaskType)
    ensures ParseType(TypeName(taskType)) == Ok(taskType)
  {
    TrimTrimmed(TypeName(taskType));
  }

  lemma NormalizeTwice(text: Option<string>)
    ensures NormalizeOptionalText(NormalizeOptionalText(text)) == NormalizeOptionalText(text)
  {
    if text.Some? {
      TrimIsTrimmed(text.value);
      TrimTrimmed(Trim(text.value));
    }
  }

  /** The type a request names; the corrected spelling is understood too. */
  predicate NamesType(taskType: Option<string>, t: TaskType) {
    if taskType.None? then t == Single
    else Trim(taskType.value) == TypeName(t) || (t.Cascaded? && Trim(taskType.value) == "Cascaded task")
  }

  predicate NamesPrompt(taskPrompt: Option<string>, p: TaskPrompt) {
    if taskPrompt.None? then p == Caption else Trim(taskPrompt.value) == PromptName(p)
  }

  lemma TypeIff(taskType: Option<string>, t: TaskType)
    ensures ParseTypeOrDefault(taskType) == Ok(t) <==> NamesType(taskType, t)
  {
    assert "Single task"[0] != "Cascased task"[0];
    assert "Single task"[0] != "Cascaded task"[0];
  }

  lemma PromptIff(t: TaskType, taskPrompt: Option<string>, p: TaskPrompt)
    requires p in Prompts(t)
    ensures ParsePromptOrDefault(t, taskPrompt) == Ok(p) <==> NamesPrompt(taskPrompt, p)
  {
    if taskPrompt.Some? {
      var found := FindPrompt(Prompts(t), Trim(taskPrompt.value));
      if found.Some? && Trim(taskPrompt.value) == PromptName(p) {
        NamesDistinct(found.value, p);
      }
    }
  }

  /** The caller's text, trimmed; blank text counts as none. */
  predicate KeepsText(text: Option<string>, kept: Option<string>) {
    && (kept.Some? <==> text.Some? && !AllBlank(text.value))
    && (kept.Some? ==> kept.value == Trim(text.value))
  }

  lemma NormalizeKeeps(text: Option<string>, kept: Option<string>)
    ensures KeepsText(text, kept) <==> NormalizeOptionalText(text) == kept
  {
    if text.Some? {
      TrimEmptyIff(text.value);
    }
  }

  /** Exactly which requests are accepted, and as what. */
  lemma AcceptedIff(
    taskType: Option<string>, taskPrompt: Option<string>, text: Option<string>, spec: TaskSpec)
    ensures FromStrings(taskType, taskPrompt, text) == Ok(spec) <==>
            && NamesType(taskType, spec.taskType) && NamesPrompt(taskPrompt, spec.taskPrompt)
            && spec.taskPrompt in Prompts(spec.taskType) && KeepsText(text, spec.textInput)
  {
    var TaskSpec(t, p, kept) := spec;
    TypeIff(taskType, t);
    NormalizeKeeps(text, kept);
    if p in Prompts(t) {
      PromptIff(t, taskPrompt, p);
    }
  }

  /** What an accepted request becomes: re-parsing its own names and text changes nothing. */
  lemma RoundTrip(taskType: Option<string>, taskPrompt: Option<string>, text: Option<string>)
    requires FromStrings(taskType, taskPrompt, text).Ok?
    ensures var spec := FromStrings(taskType, taskPrompt, text).value;
            FromStrings(Some(TypeName(spec.taskType)), Some(PromptName(spec.taskPrompt)), spec.textInput) == Ok(spec)
  {
    var spec := FromStrings(taskType, taskPrompt, text).value;
    ParseTypeName(spec.taskType);
    ParsePromptName(spec.taskType, spec.taskPrompt);
    NormalizeTwice(text);
  }

  // ----- records and requests -----

  /** The task fields a submit handler copies into the record. */
  predicate RecordsSpec(submission: Submission, spec: TaskSpec) {
    && submission.taskType == TypeName(spec.taskType)
    && submission.taskPrompt == PromptName(spec.taskPrompt)
    && submission.textInput == spec.textInput
  }

  datatype JobRequest = JobRequest(id: JobId, imagePath: string, task: TaskSpec)

  function JobRequestFromRecord(record: JobRecord): Result<JobRequest, TaskSpecError> {
    var fields := record.submission;
    match FromStrings(Some(fields.taskType), Some(fields.taskPrompt), fields.textInput)
    case Ok(task) => Ok(JobRequest(record.id, fields.imagePath, task))
    case Err(error) => Err(error)
  }

  /** `InvalidTask` cannot happen for a record built from an accepted request. */
  lemma SubmittedTaskIsValid(
    taskType: Option<string>, taskPrompt: Option<string>, text: Option<string>, record: JobRecord)
    requires FromStrings(taskType, taskPrompt, text).Ok?
    requires RecordsSpec(record.submission, FromStrings(taskType, taskPrompt, text).value)
    ensures JobRequestFromRecord(record)
            == Ok(JobRequest(record.id, record.submission.imagePath, FromStrings(taskType, taskPrompt, text).value))
  {
    RoundTrip(taskType, taskPrompt, text);
  }

  // ----- the worker's plan -----

  function SingleTaskToken(prompt: TaskPrompt): Option<string> {
    match prompt
    case Caption => Some("<CAPTION>")
    case DetailedCaption => Some("<DETAILED_CAPTION>")
    case MoreDetailedCaption => Some("<MORE_DETAILED_CAPTION>")
    case ObjectDetection => Some("<OD>")
    case DenseRegionCaption => Some("<DENSE_REGION_CAPTION>")
    case RegionProposal => Some("<REGION_PROPOSAL>")
    case CaptionToPhraseGrounding => Some("<CAPTION_TO_PHRASE_GROUNDING>")
    case ReferringExpressionSegmentation => Some("<REFERRING_EXPRESSION_SEGMENTATION>")
    case RegionToSegmentation => Some("<REGION_TO_SEGMENTATION>")
    case OpenVocabularyDetection => Some("<OPEN_VOCABULARY_DETECTION>")
    case RegionToCategory => Some("<REGION_TO_CATEGORY>")
    case RegionToDescription => Some("<REGION_TO_DESCRIPTION>")
    case Ocr => Some("<OCR>")
    case OcrWithRegion => Some("<OCR_WITH_REGION>")
    case _ => None
  }

  function CascadedCaptionToken(prompt: TaskPrompt): Option<string> {
    match prompt
    case CaptionGrounding => Some("<CAPTION>")
    case DetailedCaptionGrounding => Some("<DETAILED_CAPTION>")
    case MoreDetailedCaptionGrounding => Some("<MORE_DETAILED_CAPTION>")
    case _ => None
  }

  datatype PlanError =
    | UnsupportedPrompt(prompt: TaskPrompt)
    | UnsupportedToken(token: string)
    | MissingText(token: string)
    | GenerationFailed(task: ResolvedTask)

  /** The text for a token that needs one: trimmed, and not empty. */
  function RequiredText(token: string, text: Option<string>): Result<string, PlanError> {
    if text.Some? && Trim(text.value) != [] then Ok(Trim(text.value)) else Err(MissingText(token))
  }

  /** A prompt, or a prompt with room for the caller's text. */
  datatype Phrase = Fixed(text: string) | Quoting(before: string, behind: string)

  function PhraseFor(token: string): Option<Phrase> {
    if token == "<OCR>" then Some(Fixed("What is the text in the image?"))
    else if token == "<OCR_WITH_REGION>" then Some(Fixed("What is the text in the image, with regions?"))
    else if token == "<CAPTION>" then Some(Fixed("What does the image describe?"))
    else if token == "<DETAILED_CAPTION>" then Some(Fixed("Describe in detail what is shown in the image."))
    else if token == "<MORE_DETAILED_CAPTION>" then Some(Fixed("Describe with a paragraph what is shown in the image."))
    else if token == "<OD>" then Some(Fixed("Locate the objects with category name in the image."))
    else if token == "<DENSE_REGION_CAPTION>" then Some(Fixed("Locate the objects in the image, with their descriptions."))
    else if token == "<REGION_PROPOSAL>" then Some(Fixed("Locate the region proposals in the image."))
    else if token == "<CAPTION_TO_PHRASE_GROUNDING>" then Some(Quoting("Locate the phrases in the caption: ", ""))
    else if token == "<REFERRING_EXPRESSION_SEGMENTATION>" then Some(Quoting("Locate ", " in the image with mask"))
    else if token == "<REGION_TO_SEGMENTATION>" then Some(Quoting("What is the polygon mask of region ", ""))
    else if token == "<OPEN_VOCABULARY_DETECTION>" then Some(Quoting("Locate ", " in the image."))
    else if token == "<REGION_TO_CATEGORY>" then Some(Quoting("What is the region ", "?"))
    else if token == "<REGION_TO_DESCRIPTION>" then Some(Quoting("What does the region ", " describe?"))
    else None
  }

  function PromptText(token: string, text: Option<string>): Result<string, PlanError> {
    match PhraseFor(token)
    case None => Err(UnsupportedToken(token))
    case Some(Fixed(prompt)) => Ok(prompt)
    case Some(Quoting(before, behind)) =>
      match RequiredText(token, text)
      case Ok(value) => Ok(before + value + behind)
      case Err(error) => Err(error)
  }

  datatype ResolvedTask = ResolvedTask(taskToken: string, promptText: string)

  function Resolve(token: string, text: Option<string>): Result<ResolvedTask, PlanError> {
    match PromptText(token, text)
    case Ok(prompt) => Ok(ResolvedTask(token, prompt))
    case Err(error) => Err(error)
  }

  /**
   * The generations a task is made of.  `generate` runs one: its text, as far as it is
   * fed into the next, or None if it fails.
   */
  function RunTaskPlan(spec: TaskSpec, generate: ResolvedTask -> Option<string>): Result<seq<ResolvedTask>, PlanError> {
    if spec.taskType.Cascaded? then
      match CascadedCaptionToken(spec.taskPrompt)
      case None => Err(UnsupportedPrompt(spec.taskPrompt))
      case Some(token) =>
        match Resolve(token, None)
        case Err(error) => Err(error)
        case Ok(first) =>
          match generate(first)
          case None => Err(GenerationFailed(first))
          case Some(caption) =>
            match Resolve(GROUNDING, Some(caption))
            case Err(error) => Err(error)
            case Ok(second) => if generate(second).None? then Err(GenerationFailed(second)) else Ok([first, second])
    else
      match SingleTaskToken(spec.taskPrompt)
      case None => Err(UnsupportedPrompt(spec.taskPrompt))
      case Some(token) =>
        match Resolve(token, spec.textInput)
        case Err(error) => Err(error)
        case Ok(resolved) => if generate(resolved).None? then Err(GenerationFailed(resolved)) else Ok([resolved])
  }

  /** The tasks whose prompt quotes the caller's text. */
  predicate NeedsText(prompt: TaskPrompt) {
    || prompt.CaptionToPhraseGrounding? || prompt.ReferringExpressionSegmentation? || prompt.RegionToSegmentation?
    || prompt.OpenVocabularyDetection? || prompt.RegionToCategory? || prompt.RegionToDescription?
  }

  lemma FixedPhrases(prompt: TaskPrompt)
    requires !ForCascade(prompt) && !NeedsText(prompt)
    ensures PhraseFor(SingleTaskToken(prompt).value).Some? && PhraseFor(SingleTaskToken(prompt).value).value.Fixed?
  {
  }

  lemma QuotingPhrases(prompt: TaskPrompt)
    requires NeedsText(prompt)
    ensures PhraseFor(SingleTaskToken(prompt).value).Some? && PhraseFor(SingleTaskToken(prompt).value).value.Quoting?
  {
  }

  lemma ResolveFixed(token: string, text: Option<string>)
    requires PhraseFor(token).Some? && PhraseFor(token).value.Fixed?
    ensures Resolve(token, text).Ok? && Resolve(token, text).value.taskToken == token
  {
  }

  lemma ResolveQuoting(token: string, text: Option<string>)
    requires PhraseFor(token).Some? && PhraseFor(token).value.Quoting?
    ensures var resolved := Resolve(token, text);
            && (resolved.Err? <==> text.None? || Trim(text.value) == [])
            && (resolved.Err? ==> resolved.error == MissingText(token))
            && (resolved.Ok? ==>
                  && resolved.value.taskToken == token
                  && var Quoting(before, behind) := PhraseFor(token).value;
                     resolved.value.promptText == before + Trim(text.value) + behind)
  {
  }

  /** Every single-task token has a prompt; it fails only for want of text. */
  lemma TokenResolves(prompt: TaskPrompt, text: Option<string>)
    requires !ForCascade(prompt)
    ensures SingleTaskToken(prompt).Some?
    ensures var token := SingleTaskToken(prompt).value;
            var resolved := Resolve(token, text);
            && (resolved.Ok? ==> resolved.value.taskToken == token)
            && (resolved.Err? ==> resolved.error == MissingText(token))
            && (resolved.Err? <==> NeedsText(prompt) && (text.None? || Trim(text.value) == []))
  {
    if NeedsText(prompt) {
      QuotingPhrases(prompt);
      ResolveQuoting(SingleTaskToken(prompt).value, text);
    } else {
      FixedPhrases(prompt);
      ResolveFixed(SingleTaskToken(prompt).value, text);
    }
  }

  const GROUNDING := "<CAPTION_TO_PHRASE_GROUNDING>"

  /** The caption a cascade generates first. */
  function FirstCaption(prompt: TaskPrompt): ResolvedTask
    requires ForCascade(prompt)
  {
    CaptionFirst(prompt);
    Resolve(CascadedCaptionToken(prompt).value, None).value
  }

  /** It needs no text. */
  lemma CaptionFirst(prompt: TaskPrompt)
    requires ForCascade(prompt)
    ensures CascadedCaptionToken(prompt).Some?
    ensures var token := CascadedCaptionToken(prompt).value;
            Resolve(token, None).Ok? && Resolve(token, None).value.taskToken == token
  {
    var caption := match prompt
      case CaptionGrounding => Caption
      case DetailedCaptionGrounding => DetailedCaption
      case _ => MoreDetailedCaption;
    FixedPhrases(caption);
    ResolveFixed(SingleTaskToken(caption).value, None);
  }

  lemma GroundingPhrase()
    ensures PhraseFor(GROUNDING) == Some(Quoting("Locate the phrases in the caption: ", ""))
  {
  }

  /** The second generation of a cascade quotes the first. */
  function GroundingTask(caption: string): ResolvedTask {
    ResolvedTask(GROUNDING, "Locate the phrases in the caption: " + Trim(caption))
  }

  lemma GroundingSecond(caption: string)
    ensures Resolve(GROUNDING, Some(caption))
            == if Trim(caption) == [] then Err(MissingText(GROUNDING)) else Ok(GroundingTask(caption))
  {
    GroundingPhrase();
    ResolveQuoting(GROUNDING, Some(caption));
    var prompt := "Locate the phrases in the caption: " + Trim(caption);
    assert prompt + "" == prompt;
  }

  /** Everything that can become of a cascade. */
  function CascadeOutcome(prompt: TaskPrompt, generate: ResolvedTask -> Option<string>)
    : Result<seq<ResolvedTask>, PlanError>
    requires ForCascade(prompt)
  {
    var first := FirstCaption(prompt);
    if generate(first).None? then Err(GenerationFailed(first))
    else if Trim(generate(first).value) == [] then Err(MissingText(GROUNDING))
    else if generate(GroundingTask(generate(first).value)).None? then
      Err(GenerationFailed(GroundingTask(generate(first).value)))
    else Ok([first, GroundingTask(generate(first).value)])
  }

  /**
   * A cascade fails exactly when a generation does or the caption it generates is
   * blank; otherwise its second prompt quotes the caption.
   */
  lemma CascadeResolves(spec: TaskSpec, generate: ResolvedTask -> Option<string>)
    requires spec.taskType.Cascaded? && ForCascade(spec.taskPrompt)
    ensures RunTaskPlan(spec, generate) == CascadeOutcome(spec.taskPrompt, generate)
  {
    CaptionFirst(spec.taskPrompt);
    var first := FirstCaption(spec.taskPrompt);
    assert Resolve(CascadedCaptionToken(spec.taskPrompt).value, None) == Ok(first);
    if generate(first).Some? {
      GroundingSecond(generate(first).value);
    }
  }

  lemma SingleResolves(spec: TaskSpec, generate: ResolvedTask -> Option<string>)
    requires spec.taskType.Single? && !ForCascade(spec.taskPrompt)
    requires NormalizeOptionalText(spec.textInput) == spec.textInput
    ensures var plan, missing := RunTaskPlan(spec, generate), NeedsText(spec.taskPrompt) && spec.textInput.None?;
            && (missing ==> plan == Err(MissingText(SingleTaskToken(spec.taskPrompt).value)))
            && (!missing ==>
                  exists task: ResolvedTask ::
                    && Resolve(SingleTaskToken(spec.taskPrompt).value, spec.textInput) == Ok(task)
                    && plan == if generate(task).None? then Err(GenerationFailed(task)) else Ok([task]))
  {
    TokenResolves(spec.taskPrompt, spec.textInput);
  }

  predicate BlankText(text: Option<string>) {
    text.None? || AllBlank(text.value)
  }

  /** The text a plan cannot do without is missing: the caller's, or the caption just generated. */
  predicate TextMissing(spec: TaskSpec, text: Option<string>, generate: ResolvedTask -> Option<string>)
    requires spec.taskType.Cascaded? ==> ForCascade(spec.taskPrompt)
  {
    if spec.taskType.Cascaded? then
      var caption := generate(FirstCaption(spec.taskPrompt));
      caption.Some? && AllBlank(caption.value)
    else
      NeedsText(spec.taskPrompt) && BlankText(text)
  }

  /**
   * For an accepted task the worker always finds a token.  The plan fails exactly when
   * a text is needed and missing, or a generation it came to fails.
   */
  lemma PlanFailsIff(
    taskType: Option<string>, taskPrompt: Option<string>, text: Option<string>,
    generate: ResolvedTask -> Option<string>)
    requires FromStrings(taskType, taskPrompt, text).Ok?
    ensures var spec := FromStrings(taskType, taskPrompt, text).value;
            var plan := RunTaskPlan(spec, generate);
            && (spec.taskType.Cascaded? <==> ForCascade(spec.taskPrompt))
            && (plan.Err? ==> plan.error.MissingText? || plan.error.GenerationFailed?)
            && (plan.Err? && plan.error.MissingText? <==> TextMissing(spec, text, generate))
            && (plan.Err? && plan.error.GenerationFailed? ==> generate(plan.error.task).None?)
            && (plan.Ok? ==> forall k :: 0 <= k < |plan.value| ==> generate(plan.value[k]).Some?)
  {
    var spec := FromStrings(taskType, taskPrompt, text).value;
    AcceptedSpec(taskType, taskPrompt, text);
    if spec.taskType.Single? {
      SingleResolves(spec, generate);
      NormalizeKeeps(text, spec.textInput);
    } else {
      CascadeResolves(spec, generate);
      CaptionBlankIff(generate(FirstCaption(spec.taskPrompt)));
    }
  }

  lemma CaptionBlankIff(caption: Option<string>)
    ensures caption.Some? ==> (Trim(caption.value) == [] <==> AllBlank(caption.value))
  {
    if caption.Some? {
      TrimEmptyIff(caption.value);
    }
  }

  lemma AcceptedSpec(taskType: Option<string>, taskPrompt: Option<string>, text: Option<string>)
    requires FromStrings(taskType, taskPrompt, text).Ok?
    ensures var spec := FromStrings(taskType, taskPrompt, text).value;
            && (spec.taskType.Cascaded? <==> ForCascade(spec.taskPrompt))
            && NormalizeOptionalText(spec.textInput) == spec.textInput
            && NormalizeOptionalText(text) == spec.textInput
  {
    PromptsByType(FromStrings(taskType, taskPrompt, text).value.taskPrompt);
    NormalizeTwice(text);
  }

  // ----- tokens and names -----

  function NameInitial(prompt: TaskPrompt): char {
    match prompt
    case ObjectDetection => 'O'
    case OpenVocabularyDetection => 'O'
    case Ocr => 'O'
    case OcrWithRegion => 'O'
    case DetailedCaption => 'D'
    case DenseRegionCaption => 'D'
    case DetailedCaptionGrounding => 'D'
    case MoreDetailedCaption => 'M'
    case MoreDetailedCaptionGrounding => 'M'
    case RegionProposal => 'R'
    case ReferringExpressionSegmentation => 'R'
    case RegionToSegmentation => 'R'
    case RegionToCategory => 'R'
    case RegionToDescription => 'R'
    case _ => 'C'
  }

  lemma NameStarts(prompt: TaskPrompt)
    ensures PromptName(prompt) != [] && PromptName(prompt)[0] == NameInitial(prompt)
  {
  }

  /** In angle brackets, with the length and the initial of the prompt's name. */
  predicate Abbreviates(token: string, prompt: TaskPrompt) {
    && |token| == NameLength(prompt) + 2
    && token[0] == '<' && token[1] == NameInitial(prompt) && token[|token| - 1] == '>'
  }

  lemma QuotingTokens(prompt: TaskPrompt)
    requires NeedsText(prompt)
    ensures SingleTaskToken(prompt).Some? && Abbreviates(SingleTaskToken(prompt).value, prompt)
  {
  }

  lemma FixedTokens(prompt: TaskPrompt)
    requires !ForCascade(prompt) && !NeedsText(prompt) && !prompt.ObjectDetection?
    ensures SingleTaskToken(prompt).Some? && Abbreviates(SingleTaskToken(prompt).value, prompt)
  {
  }

  /**
   * Every single-task token but object detection's abbreviates its own prompt's name
   * and no other's: the length and the initial of a name give it away.
   */
  lemma TokenFollowsName(prompt: TaskPrompt, other: TaskPrompt)
    requires !ForCascade(prompt) && !prompt.ObjectDetection?
    ensures SingleTaskToken(prompt).Some?
    ensures Abbreviates(SingleTaskToken(prompt).value, other) <==> prompt == other
  {
    if NeedsText(prompt) {
      QuotingTokens(prompt);
    } else {
      FixedTokens(prompt);
    }
    if prompt != other {
      ShapesDiffer(prompt, other);
    }
  }

  lemma ShapesDiffer(a: TaskPrompt, b: TaskPrompt)
    requires a != b
    ensures NameLength(a) != NameLength(b) || NameInitial(a) != NameInitial(b)
  {
  }

  /** Object detection's token is shorter than any other. */
  lemma ShortestToken(prompt: TaskPrompt)
    requires !ForCascade(prompt)
    ensures SingleTaskToken(ObjectDetection) == Some("<OD>")
    ensures !prompt.ObjectDetection? ==> |SingleTaskToken(prompt).value| > 4
  {
    if !prompt.ObjectDetection? {
      TokenFollowsName(prompt, prompt);
    }
  }

  /** No two prompts share a token. */
  lemma TokensDistinct(a: TaskPrompt, b: TaskPrompt)
    requires !ForCascade(a) && !ForCascade(b) && SingleTaskToken(a) == SingleTaskToken(b)
    ensures a == b
  {
    if a.ObjectDetection? || b.ObjectDetection? {
      ShortestToken(if a.ObjectDetection? then b else a);
    } else {
      TokenFollowsName(b, b);
      TokenFollowsName(a, b);
    }
  }

  /** The caption a cascade is named after. */
  function CaptionOf(prompt: TaskPrompt): TaskPrompt
    requires ForCascade(prompt)
  {
    match prompt
    case CaptionGrounding => Caption
    case DetailedCaptionGrounding => DetailedCaption
    case _ => MoreDetailedCaption
  }

  /** A cascade's name is its caption's with a suffix. */
  lemma CascadeSpellsCaption(prompt: TaskPrompt)
    requires ForCascade(prompt)
    ensures PromptName(prompt) == PromptName(CaptionOf(prompt)) + " + Grounding"
  {
  }

  /** A cascade starts with the token of the caption it is named after. */
  lemma CascadeStartsWithCaption(prompt: TaskPrompt)
    requires ForCascade(prompt)
    ensures CascadedCaptionToken(prompt) == SingleTaskToken(CaptionOf(prompt))
  {
  }
}
