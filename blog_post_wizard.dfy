/**
 * The blog post wizard: a five-step form (content, media, details, publish, share) kept in
 * one record that every handler changes by merging a partial update into it.
 *
 * The pure part gives the record, the merge and one transition function per handler, the
 * buttons each step shows, and the Markdown rendering. `Wizard` is the component: it holds
 * the record and the draft saved in the browser's storage, which follows the record while
 * nothing has been published.
 */
module BlogPostWizard {
  import opened Types
  import opened Text
  import GeminiService
  import AppRoot

  datatype Platform = Internal | WordPress

  datatype WpConfig = WpConfig(apiUrl: string, user: string, appPass: string)

  datatype PublishResult = PublishResult(success: bool, url: Option<string>, message: string)

  datatype WizardState = WizardState(
    step: int,
    title: string,
    content: string,
    imagePrompt: string,
    featuredImage: string,
    tags: string,
    categories: string,
    platform: Platform,
    wpConfig: WpConfig,
    isPublishing: bool,
    error: Option<string>,
    publishResult: Option<PublishResult>)

  /** The record a new wizard starts from, and the one Reset returns to. */
  function InitialState(): (s: WizardState)
    ensures s.step == 1 && s.title == [] && s.content == [] && s.featuredImage == []
    ensures s.imagePrompt == [] && s.tags == [] && s.categories == [] && s.wpConfig == WpConfig("", "", "")
    ensures s.platform == Internal && !s.isPublishing && s.error.None? && s.publishResult.None?
  {
    WizardState(1, "", "", "", "", "", "", Internal, WpConfig("", "", ""), false, None, None)
  }

  // ---------------------------------------------------------------------------------------
  // Partial updates

  /** The fields of the record, to state which ones an operation may change. */
  datatype Field =
    | StepField | TitleField | ContentField | ImagePromptField | FeaturedImageField | TagsField
    | CategoriesField | PlatformField | WpConfigField | IsPublishingField | ErrorField
    | PublishResultField

  /** `a` and `b` hold the same value in field `f`. */
  predicate Agree(a: WizardState, b: WizardState, f: Field) {
    match f
    case StepField => a.step == b.step
    case TitleField => a.title == b.title
    case ContentField => a.content == b.content
    case ImagePromptField => a.imagePrompt == b.imagePrompt
    case FeaturedImageField => a.featuredImage == b.featuredImage
    case TagsField => a.tags == b.tags
    case CategoriesField => a.categories == b.categories
    case PlatformField => a.platform == b.platform
    case WpConfigField => a.wpConfig == b.wpConfig
    case IsPublishingField => a.isPublishing == b.isPublishing
    case ErrorField => a.error == b.error
    case PublishResultField => a.publishResult == b.publishResult
  }

  /** Every field outside `changed` holds the same value in `a` and `b`. */
  predicate OnlyChanged(a: WizardState, b: WizardState, changed: set<Field>) {
    forall f :: f !in changed ==> Agree(a, b, f)
  }

  /** Records that agree on every field are equal. */
  lemma AgreeEverywhere(a: WizardState, b: WizardState)
    requires OnlyChanged(a, b, {})
    ensures a == b
  {
    assert Agree(a, b, StepField) && Agree(a, b, TitleField) && Agree(a, b, ContentField);
    assert Agree(a, b, ImagePromptField) && Agree(a, b, FeaturedImageField) && Agree(a, b, TagsField);
    assert Agree(a, b, CategoriesField) && Agree(a, b, PlatformField) && Agree(a, b, WpConfigField);
    assert Agree(a, b, IsPublishingField) && Agree(a, b, ErrorField) && Agree(a, b, PublishResultField);
  }

  /** `Partial<WizardState>`: a value for each field the update names. */
  datatype Update = Update(
    step: Option<int>,
    title: Option<string>,
    content: Option<string>,
    imagePrompt: Option<string>,
    featuredImage: Option<string>,
    tags: Option<string>,
    categories: Option<string>,
    platform: Option<Platform>,
    wpConfig: Option<WpConfig>,
    isPublishing: Option<bool>,
    error: Option<Option<string>>,
    publishResult: Option<Option<PublishResult>>)

  const NoChange := Update(None, None, None, None, None, None, None, None, None, None, None, None)

  /** The update names field `f`. */
  predicate Names(u: Update, f: Field) {
    match f
    case StepField => u.step.Some?
    case TitleField => u.title.Some?
    case ContentField => u.content.Some?
    case ImagePromptField => u.imagePrompt.Some?
    case FeaturedImageField => u.featuredImage.Some?
    case TagsField => u.tags.Some?
    case CategoriesField => u.categories.Some?
    case PlatformField => u.platform.Some?
    case WpConfigField => u.wpConfig.Some?
    case IsPublishingField => u.isPublishing.Some?
    case ErrorField => u.error.Some?
    case PublishResultField => u.publishResult.Some?
  }

  /** Field `f` of `r` holds the value the update gives it. */
  predicate Takes(r: WizardState, u: Update, f: Field) {
    match f
    case StepField => u.step == Some(r.step)
    case TitleField => u.title == Some(r.title)
    case ContentField => u.content == Some(r.content)
    case ImagePromptField => u.imagePrompt == Some(r.imagePrompt)
    case FeaturedImageField => u.featuredImage == Some(r.featuredImage)
    case TagsField => u.tags == Some(r.tags)
    case CategoriesField => u.categories == Some(r.categories)
    case PlatformField => u.platform == Some(r.platform)
    case WpConfigField => u.wpConfig == Some(r.wpConfig)
    case IsPublishingField => u.isPublishing == Some(r.isPublishing)
    case ErrorField => u.error == Some(r.error)
    case PublishResultField => u.publishResult == Some(r.publishResult)
  }

  /** `{ ...prev, ...updates }`: the fields the update names take its values; no other field changes. */
  function Merge(s: WizardState, u: Update): (r: WizardState)
    ensures forall f :: Names(u, f) ==> Takes(r, u, f)
    ensures forall f :: !Names(u, f) ==> Agree(r, s, f)
  {
    WizardState(
      u.step.GetOr(s.step), u.title.GetOr(s.title), u.content.GetOr(s.content),
      u.imagePrompt.GetOr(s.imagePrompt), u.featuredImage.GetOr(s.featuredImage),
      u.tags.GetOr(s.tags), u.categories.GetOr(s.categories), u.platform.GetOr(s.platform),
      u.wpConfig.GetOr(s.wpConfig), u.isPublishing.GetOr(s.isPublishing),
      u.error.GetOr(s.error), u.publishResult.GetOr(s.publishResult))
  }

  /** A merge changes only fields its update names. */
  lemma MergeOnly(s: WizardState, u: Update, changed: set<Field>)
    requires forall f :: Names(u, f) ==> f in changed
    ensures OnlyChanged(Merge(s, u), s, changed)
  {
  }

  /** Two changes confined to the same fields are together confined to them. */
  lemma OnlyChangedTrans(a: WizardState, b: WizardState, c: WizardState, changed: set<Field>)
    requires OnlyChanged(a, b, changed) && OnlyChanged(b, c, changed)
    ensures OnlyChanged(a, c, changed)
  {
    forall f | f !in changed
      ensures Agree(a, c, f)
    {
      assert Agree(a, b, f) && Agree(b, c, f);
    }
  }

  /**
   * A named field takes the update's value whatever the record held before: merging the
   * same update into two records gives them the same value there.
   */
  lemma MergeOverrides(s: WizardState, t: WizardState, u: Update)
    ensures forall f :: Names(u, f) ==> Takes(Merge(s, u), u, f) && Takes(Merge(t, u), u, f)
    ensures forall f :: Names(u, f) ==> Agree(Merge(s, u), Merge(t, u), f)
  {
    forall f | Names(u, f)
      ensures Agree(Merge(s, u), Merge(t, u), f)
    {
      assert Takes(Merge(s, u), u, f) && Takes(Merge(t, u), u, f);
    }
  }

  /** The empty update changes nothing. */
  lemma MergeNoChange(s: WizardState)
    ensures Merge(s, NoChange) == s
  {
    AgreeEverywhere(Merge(s, NoChange), s);
  }

  /** `{ ...a, ...b }`: the later update wins where both name a field. */
  function Then(a: Update, b: Update): Update {
    Update(
      if b.step.Some? then b.step else a.step,
      if b.title.Some? then b.title else a.title,
      if b.content.Some? then b.content else a.content,
      if b.imagePrompt.Some? then b.imagePrompt else a.imagePrompt,
      if b.featuredImage.Some? then b.featuredImage else a.featuredImage,
      if b.tags.Some? then b.tags else a.tags,
      if b.categories.Some? then b.categories else a.categories,
      if b.platform.Some? then b.platform else a.platform,
      if b.wpConfig.Some? then b.wpConfig else a.wpConfig,
      if b.isPublishing.Some? then b.isPublishing else a.isPublishing,
      if b.error.Some? then b.error else a.error,
      if b.publishResult.Some? then b.publishResult else a.publishResult)
  }

  /** Two merges in a row are one merge of the combined update. */
  lemma MergeTwice(s: WizardState, a: Update, b: Update)
    ensures Merge(Merge(s, a), b) == Merge(s, Then(a, b))
    ensures forall f :: Names(Then(a, b), f) <==> Names(a, f) || Names(b, f)
  {
  }

  /** Applying the same update again changes nothing more. */
  lemma MergeIdempotent(s: WizardState, u: Update)
    ensures Merge(Merge(s, u), u) == Merge(s, u)
  {
    MergeTwice(s, u, u);
    assert Then(u, u) == u;
  }

  // ---------------------------------------------------------------------------------------
  // The handlers, as transitions of the record

  /** `handleNext`: one step forward, the error cleared. */
  function NextState(s: WizardState): (r: WizardState)
    ensures r.step == s.step + 1 && r.error.None?
    ensures OnlyChanged(r, s, {StepField, ErrorField})
  {
    Merge(s, NoChange.(step := Some(s.step + 1), error := Some(None)))
  }

  /** `handleBack`: one step back, the error cleared. */
  function BackState(s: WizardState): (r: WizardState)
    ensures r.step == s.step - 1 && r.error.None?
    ensures OnlyChanged(r, s, {StepField, ErrorField})
  {
    Merge(s, NoChange.(step := Some(s.step - 1), error := Some(None)))
  }

  /** Back undoes Next, apart from clearing the error. */
  lemma BackAfterNext(s: WizardState)
    ensures BackState(NextState(s)) == s.(error := None)
  {
  }

  /** What `completeArticle` returns for a reply: its text, or its failure string. */
  function CompletionOf(reply: GeminiService.ApiReply): string {
    GeminiService.GeneratorOutput(GeminiService.CompleteArticle, reply)
  }

  const BlankContentMessage: string := "Please write some content first to give the AI a starting point."
  const ParagraphBreak: string := "\n\n"

  /**
   * `handleCompleteArticle`. Blank content sets the error and changes nothing else.
   * Otherwise the error is cleared and the service is asked to continue the text: a failure
   * string becomes the error and the content is left alone; any other reply is appended to
   * the content after a blank line.
   */
  function CompleteArticleState(s: WizardState, reply: GeminiService.ApiReply): (r: WizardState)
    ensures IsBlank(s.content) ==> r == s.(error := Some(BlankContentMessage))
    ensures !IsBlank(s.content) ==> OnlyChanged(r, s, {ContentField, ErrorField})
    ensures !IsBlank(s.content) && GeminiService.IsErrorText(CompletionOf(reply)) ==>
              r == s.(error := Some(CompletionOf(reply)))
    ensures !IsBlank(s.content) && !GeminiService.IsErrorText(CompletionOf(reply)) ==>
              r == s.(content := s.content + ParagraphBreak + CompletionOf(reply), error := None)
    ensures !IsBlank(s.content) && reply.Thrown? ==> r.content == s.content && r.error.Some?
    ensures r.error.None? ==> StartsWith(r.content, s.content)
  {
    if IsBlank(s.content) then
      Merge(s, NoChange.(error := Some(Some(BlankContentMessage))))
    else
      var changed := {ContentField, ErrorField};
      var clear := NoChange.(error := Some(None));
      var cleared := Merge(s, clear);
      MergeOnly(s, clear, changed);
      var result := CompletionOf(reply);
      var u := if GeminiService.IsErrorText(result) then NoChange.(error := Some(Some(result)))
               else NoChange.(content := Some(s.content + ParagraphBreak + result));
      MergeOnly(cleared, u, changed);
      OnlyChangedTrans(Merge(cleared, u), cleared, s, changed);
      Framed(s.content, ParagraphBreak, result);
      Merge(cleared, u)
  }

  const NoPromptMessage: string := "Please provide a title or an image prompt."

  /** The image is described by the image prompt, or by the title when the prompt is empty. */
  function ImagePromptFor(s: WizardState): (r: string)
    ensures s.imagePrompt != [] ==> r == s.imagePrompt
    ensures s.imagePrompt == [] ==> r == s.title
    ensures r == [] <==> s.imagePrompt == [] && s.title == []
  {
    if s.imagePrompt != [] then s.imagePrompt else s.title
  }

  /**
   * `handleGenerateImage`. Without a prompt or a title the error is set and nothing else
   * changes. Otherwise the error is cleared and the service is called: its error becomes
   * the error; a non-empty image becomes the featured image.
   */
  function GenerateImageState(s: WizardState, reply: GeminiService.ImageReply): (r: WizardState)
    ensures ImagePromptFor(s) == [] ==> r == s.(error := Some(NoPromptMessage))
    ensures ImagePromptFor(s) != [] ==> OnlyChanged(r, s, {FeaturedImageField, ErrorField})
    ensures ImagePromptFor(s) != [] && reply.ImagesReturned? && |reply.images| > 0 && reply.images[0] != [] ==>
              r.featuredImage == reply.images[0] && r.error.None?
    ensures ImagePromptFor(s) != [] && reply.ImagesReturned? && |reply.images| == 0 ==>
              r.featuredImage == s.featuredImage && r.error == Some(GeminiService.NoImagesMessage)
    ensures r.featuredImage != s.featuredImage ==> r.error.None?
    ensures ImagePromptFor(s) != [] ==>
              match GeminiService.GenerateFeaturedImage(ImagePromptFor(s), reply)
              case ImageErr(e) => r == s.(error := Some(e))
              case ImageOk(image) =>
                r == if image != [] then s.(featuredImage := image, error := None) else s.(error := None)
  {
    var prompt := ImagePromptFor(s);
    if prompt == [] then
      Merge(s, NoChange.(error := Some(Some(NoPromptMessage))))
    else
      var changed := {FeaturedImageField, ErrorField};
      var clear := NoChange.(error := Some(None));
      var cleared := Merge(s, clear);
      MergeOnly(s, clear, changed);
      var u := match GeminiService.GenerateFeaturedImage(prompt, reply)
               case ImageErr(e) => NoChange.(error := Some(Some(e)))
               case ImageOk(image) => if image != [] then NoChange.(featuredImage := Some(image)) else NoChange;
      MergeOnly(cleared, u, changed);
      OnlyChangedTrans(Merge(cleared, u), cleared, s, changed);
      Merge(cleared, u)
  }

  const InternalSuccessMessage: string := "Successfully published to internal page!"

  /** What the wizard hands over for internal publication. */
  function DraftOf(s: WizardState): (d: PostDraft)
    ensures d.title == s.title && d.content == s.content && d.featuredImage == s.featuredImage
    ensures d.tags == s.tags && d.categories == s.categories
  {
    PostDraft(s.title, s.content, s.featuredImage, s.tags, s.categories)
  }

  /**
   * `handlePublish`, as far as the wizard's record goes. Publishing internally ends on the
   * share step with a success result; publishing to WordPress only marks the record as
   * publishing (the simulated remote call is not modelled).
   */
  function PublishState(s: WizardState): (r: WizardState)
    ensures r.error.None?
    ensures s.platform == Internal ==>
              r.step == 5 && !r.isPublishing && r.publishResult == Some(PublishResult(true, None, InternalSuccessMessage))
    ensures s.platform == WordPress ==> r.isPublishing && r.publishResult.None? && r.step == s.step
    ensures OnlyChanged(r, s, {StepField, IsPublishingField, ErrorField, PublishResultField})
  {
    var started := Merge(s, NoChange.(isPublishing := Some(true), error := Some(None), publishResult := Some(None)));
    if s.platform == Internal then
      var result := PublishResult(true, None, InternalSuccessMessage);
      Merge(started, NoChange.(isPublishing := Some(false), publishResult := Some(Some(result)), step := Some(5)))
    else
      started
  }

  /** The history topic of an internal publication. */
  function PublishedTopic(title: string): string {
    AppRoot.HistoryTopic("Published: ", title)
  }

  // ---------------------------------------------------------------------------------------
  // What the user can do on each step

  datatype Action =
    | TypeTitle(title: string)
    | TypeContent(content: string)
    | CompleteWithAi(reply: GeminiService.ApiReply)
    | TypeImagePrompt(prompt: string)
    | GenerateImage(imageReply: GeminiService.ImageReply)
    | TypeTags(tags: string)
    | TypeCategories(categories: string)
    | ChoosePlatform(platform: Platform)
    | TypeWpConfig(config: WpConfig)
    | CopyMarkdown
    | Publish
    | Next
    | Back
    | Reset

  /** The update an input field makes; typing a title also fills the image prompt. */
  function EditUpdate(a: Action): (u: Update)
    ensures !Names(u, StepField) && !Names(u, PublishResultField)
  {
    match a
    case TypeTitle(t) => NoChange.(title := Some(t), imagePrompt := Some(t))
    case TypeContent(c) => NoChange.(content := Some(c))
    case TypeImagePrompt(p) => NoChange.(imagePrompt := Some(p))
    case TypeTags(t) => NoChange.(tags := Some(t))
    case TypeCategories(c) => NoChange.(categories := Some(c))
    case ChoosePlatform(p) => NoChange.(platform := Some(p))
    case TypeWpConfig(c) => NoChange.(wpConfig := Some(c))
    case _ => NoChange
  }

  /**
   * The controls each step renders, enabled. Step 1 has no Back, and its Next needs a title
   * and content; step 4 has no Next; step 5 shows only Reset, and only once there is a
   * publish result.
   */
  predicate Available(s: WizardState, a: Action)
    ensures Available(s, a) ==> 1 <= s.step <= 5
    ensures Available(s, a) && s.step == 5 ==> a == Reset
  {
    match s.step
    case 1 =>
      || a.TypeTitle? || a.TypeContent?
      || (a.CompleteWithAi? && !IsBlank(s.content))
      || (a == Next && s.title != [] && s.content != [])
    case 2 =>
      || a.TypeImagePrompt? || (a.GenerateImage? && s.imagePrompt != []) || a == Back || a == Next
    case 3 =>
      || a.TypeTags? || a.TypeCategories? || a.ChoosePlatform?
      || (a.TypeWpConfig? && s.platform == WordPress) || a == Back || a == Next
    case 4 =>
      a == Back || a == CopyMarkdown || (a == Publish && !s.isPublishing)
    case 5 =>
      a == Reset && s.publishResult.Some?
    case _ => false
  }

  /** The record after an action. Only Publish and Reset touch the publish result. */
  function After(s: WizardState, a: Action): (r: WizardState)
    ensures r.publishResult != s.publishResult ==> a == Publish || a == Reset
  {
    match a
    case CompleteWithAi(reply) => CompleteArticleState(s, reply)
    case GenerateImage(reply) => GenerateImageState(s, reply)
    case CopyMarkdown => s
    case Publish => PublishState(s)
    case Next => NextState(s)
    case Back => BackState(s)
    case Reset => InitialState()
    case _ => Merge(s, EditUpdate(a))
  }

  /**
   * A session of clicks and keystrokes; controls that are not shown do nothing. A session
   * whose publish result differs at its end pressed Publish or Reset somewhere.
   */
  function Run(s: WizardState, actions: seq<Action>): (r: WizardState)
    ensures r.publishResult != s.publishResult ==>
              exists i :: 0 <= i < |actions| && (actions[i] == Publish || actions[i] == Reset)
    decreases |actions|
  {
    if actions == [] then s
    else
      var s' := if Available(s, actions[0]) then After(s, actions[0]) else s;
      var r := Run(s', actions[1..]);
      assert r.publishResult != s'.publishResult ==>
               exists i :: 1 <= i < |actions| && (actions[i] == Publish || actions[i] == Reset) by {
        if r.publishResult != s'.publishResult {
          var i :| 0 <= i < |actions[1..]| && (actions[1..][i] == Publish || actions[1..][i] == Reset);
          assert actions[i + 1] == actions[1..][i];
        }
      }
      r
  }

  /** One available action keeps the step within 1..5. */
  lemma StepBounded(s: WizardState, a: Action)
    requires Available(s, a)
    ensures 1 <= After(s, a).step <= 5
  {
    StepAfter(s, a);
  }

  /** Only Next, Back, Reset and an internal Publish move the wizard to another step. */
  lemma StepAfter(s: WizardState, a: Action)
    ensures After(s, a).step ==
      match a
      case Next => s.step + 1
      case Back => s.step - 1
      case Reset => 1
      case Publish => if s.platform == Internal then 5 else s.step
      case _ => s.step
  {
    match a
    case CompleteWithAi(reply) =>
      assert Agree(CompleteArticleState(s, reply), s, StepField);
    case GenerateImage(reply) =>
      assert Agree(GenerateImageState(s, reply), s, StepField);
    case CopyMarkdown =>
    case Publish =>
    case Next =>
    case Back =>
    case Reset =>
    case _ =>
      assert !Names(EditUpdate(a), StepField);
      assert Agree(Merge(s, EditUpdate(a)), s, StepField);
  }

  /** Whatever the user does, the wizard stays on one of its five steps. */
  lemma {:induction false} RunStaysInRange(s: WizardState, actions: seq<Action>)
    requires 1 <= s.step <= 5
    ensures 1 <= Run(s, actions).step <= 5
    decreases |actions|
  {
    if actions != [] {
      var s' := if Available(s, actions[0]) then After(s, actions[0]) else s;
      if Available(s, actions[0]) {
        StepBounded(s, actions[0]);
      }
      RunStaysInRange(s', actions[1..]);
    }
  }

  /**
   * Leaving the first step takes Next with a title and content, and the share step is
   * reached only by publishing internally from step 4 (the delayed completion of a
   * WordPress publication is not part of this model).
   */
  lemma StepEntries(s: WizardState, a: Action)
    requires Available(s, a)
    ensures s.step == 1 && After(s, a).step != 1 ==> a == Next && s.title != [] && s.content != []
    ensures s.step != 5 && After(s, a).step == 5 ==> a == Publish && s.step == 4 && s.platform == Internal
  {
    StepAfter(s, a);
  }

  /** A Reset from the share step starts over on step 1 with an empty record. */
  lemma ResetStartsOver(s: WizardState)
    requires Available(s, Reset)
    ensures After(s, Reset) == InitialState() && After(s, Reset).step == 1
  {
  }

  // ---------------------------------------------------------------------------------------
  // Markdown

  const ImageOpen: string := "![Featured Image](data:image/jpeg;base64,"

  /** The image line of the Markdown: empty when there is no image. */
  function ImageLine(image: string): (r: string)
    ensures image == [] ==> r == []
    ensures image != [] ==> StartsWith(r, ImageOpen) && OccursAt(r, image, |ImageOpen|) && EndsWith(r, ")")
    ensures image != [] ==> |r| == |ImageOpen| + |image| + 1
  {
    if image == [] then []
    else
      Framed(ImageOpen, image, ")");
      ImageOpen + image + ")"
  }

  /**
   * `copyAsMarkdown`: a level-one heading with the title, the image line, then the content,
   * separated by blank lines.
   */
  function Markdown(title: string, image: string, content: string): (r: string)
    ensures StartsWith(r, "# " + title + "\n\n")
    ensures EndsWith(r, "\n\n" + content)
    ensures image == [] ==> r == "# " + title + "\n\n\n\n" + content
    ensures image != [] ==> OccursAt(r, ImageLine(image), |"# " + title + "\n\n"|)
    ensures |r| == |"# " + title + "\n\n"| + |ImageLine(image)| + |"\n\n" + content|
  {
    var head, tail := "# " + title + "\n\n", "\n\n" + content;
    Framed(head, ImageLine(image), tail);
    assert image == [] ==> head + ImageLine(image) + tail == "# " + title + "\n\n\n\n" + content;
    head + ImageLine(image) + tail
  }

  // ---------------------------------------------------------------------------------------
  // The component

  /** The saved draft: the record while nothing is published, and no draft afterwards. */
  function DraftFor(s: WizardState): (d: Option<WizardState>)
    ensures d.Some? <==> s.publishResult.None?
    ensures d.Some? ==> d.value == s
  {
    if s.publishResult.None? then Some(s) else None
  }

  class Wizard {
    var state: WizardState
    var draft: Option<WizardState>

    /** The draft in storage follows the record. */
    ghost predicate Valid()
      reads this
    {
      draft == DraftFor(state)
    }

    /**
     * Mounting the wizard. A saved draft without a publish result is restored when the user
     * confirms; otherwise the wizard starts empty. Either way the record is saved again.
     */
    constructor(saved: Option<WizardState>, confirmRestore: bool)
      ensures Valid()
      ensures saved.Some? && saved.value.publishResult.None? && confirmRestore ==> state == saved.value
      ensures !(saved.Some? && saved.value.publishResult.None? && confirmRestore) ==> state == InitialState()
    {
      var s := if saved.Some? && saved.value.publishResult.None? && confirmRestore
               then saved.value else InitialState();
      state := s;
      draft := DraftFor(s);
    }

    /** `updateState`, followed by the effect that saves the draft. */
    method UpdateState(u: Update)
      modifies this`state, this`draft
      ensures Valid()
      ensures state == Merge(old(state), u)
    {
      state := Merge(state, u);
      draft := DraftFor(state);
    }

    method HandleNext()
      modifies this`state, this`draft
      ensures Valid()
      ensures state == NextState(old(state))
    {
      UpdateState(NoChange.(step := Some(state.step + 1), error := Some(None)));
    }

    method HandleBack()
      modifies this`state, this`draft
      ensures Valid()
      ensures state == BackState(old(state))
    {
      UpdateState(NoChange.(step := Some(state.step - 1), error := Some(None)));
    }

    method HandleCompleteArticle(reply: GeminiService.ApiReply)
      modifies this`state, this`draft
      ensures Valid()
      ensures state == CompleteArticleState(old(state), reply)
    {
      if IsBlank(state.content) {
        UpdateState(NoChange.(error := Some(Some(BlankContentMessage))));
        return;
      }
      var content := state.content;
      UpdateState(NoChange.(error := Some(None)));
      var result := CompletionOf(reply);
      if GeminiService.IsErrorText(result) {
        UpdateState(NoChange.(error := Some(Some(result))));
      } else {
        UpdateState(NoChange.(content := Some(content + ParagraphBreak + result)));
      }
    }

    method HandleGenerateImage(reply: GeminiService.ImageReply)
      modifies this`state, this`draft
      ensures Valid()
      ensures state == GenerateImageState(old(state), reply)
    {
      var prompt := ImagePromptFor(state);
      if prompt == [] {
        UpdateState(NoChange.(error := Some(Some(NoPromptMessage))));
        return;
      }
      UpdateState(NoChange.(error := Some(None)));
      var result := GeminiService.GenerateFeaturedImage(prompt, reply);
      if result.ImageErr? {
        UpdateState(NoChange.(error := Some(Some(result.error))));
      } else if result.base64Image != [] {
        UpdateState(NoChange.(featuredImage := Some(result.base64Image)));
      }
    }

    /**
     * `handlePublish`. Publishing internally hands the post to the application (placed
     * first in its list, with the given id and time), records `Published: <title>` first in
     * the history, and ends on the share step with no draft left.
     */
    method HandlePublish(app: AppRoot.App, postId: string, timestamp: int)
      requires app.Valid()
      modifies this`state, this`draft, app`blogPosts, app`storedPosts, app`history, app`nextHistoryId
      ensures Valid() && app.Valid()
      ensures state == PublishState(old(state))
      ensures old(state.platform) == Internal ==>
                && app.blogPosts == [BlogPost(postId, old(state.title), old(state.content), old(state.featuredImage),
                                              old(state.tags), old(state.categories), timestamp)] + old(app.blogPosts)
                && |app.history| == |old(app.history)| + 1
                && app.history[1..] == old(app.history)
                && app.history[0].kind == BlogWizard
                && app.history[0].topic == PublishedTopic(old(state.title))
                && app.history[0].content == old(state.content)
                && draft.None?
      ensures old(state.platform) == WordPress ==>
                && app.blogPosts == old(app.blogPosts) && app.storedPosts == old(app.storedPosts)
                && app.history == old(app.history) && app.nextHistoryId == old(app.nextHistoryId)
    {
      var s := state;
      UpdateState(NoChange.(isPublishing := Some(true), error := Some(None), publishResult := Some(None)));
      if s.platform == Internal {
        var _ := app.PublishInternal(DraftOf(s), postId, timestamp);
        var result := PublishResult(true, None, InternalSuccessMessage);
        UpdateState(NoChange.(isPublishing := Some(false), publishResult := Some(Some(result)), step := Some(5)));
        app.AddToHistory(HistoryEntry(BlogWizard, PublishedTopic(s.title), s.content));
      }
    }

    method HandleReset()
      modifies this`state, this`draft
      ensures Valid()
      ensures state == InitialState() && draft == Some(InitialState())
    {
      state := InitialState();
      draft := DraftFor(state);
    }
  }
}
