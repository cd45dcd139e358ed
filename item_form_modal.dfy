/**
 * The item form (components/ItemFormModal.tsx): six state cells holding the
 * draft, the AI-request flag and the AI error message; the effect that loads
 * the draft whenever the `item` prop changes; the record the form submits;
 * and the AI auto-fill of unit and threshold.
 *
 * The suggestion service is not modelled; its settled outcome is an input.
 * `handleAiSuggest` awaits it, so it is split at the `await` into
 * `BeginSuggest` and `FinishSuggest`, between which other edits may happen.
 */
module ItemFormModal {

  import opened Wrappers
  import opened Types

  /** What `onSave` receives: bare data for a new item, or the edited item with its id. */
  datatype Submission = NewData(data: InventoryItemData) | Edited(item: InventoryItem)

  /** How the awaited `suggestItemDetails(name)` settled: a suggestion, `null`, or a rejection. */
  datatype SuggestOutcome = Suggested(unit: string, lowStockThreshold: int) | NoSuggestion | RequestFailed

  const EmptyNameError: string := "품목 이름을 먼저 입력해주세요."
  const SuggestFailedError: string := "AI 추천을 받는데 실패했습니다."

  /** The draft the init effect loads: the item's fields, or empty strings and zeros for a new item. */
  function DraftFor(item: Option<InventoryItem>): (d: InventoryItemData)
    ensures item.Some? ==> d == DataOf(item.value)
    ensures item.None? ==> d == InventoryItemData("", 0, "", 0)
  {
    match item
    case Some(it) => InventoryItemData(it.name, it.quantity, it.unit, it.lowStockThreshold)
    case None => InventoryItemData("", 0, "", 0)
  }

  /**
   * `handleSubmit`: in edit mode the original item with the four draft fields
   * written over it, keeping its id and time stamp; in create mode the bare data.
   */
  function SubmittedRecord(item: Option<InventoryItem>, draft: InventoryItemData): (r: Submission)
    ensures item.None? ==> r == NewData(draft)
    ensures item.Some? ==> r.Edited? && DataOf(r.item) == draft &&
                           r.item.id == item.value.id && r.item.lastUpdated == item.value.lastUpdated
  {
    match item
    case Some(it) => Edited(it.(name := draft.name, quantity := draft.quantity, unit := draft.unit,
                                lowStockThreshold := draft.lowStockThreshold))
    case None => NewData(draft)
  }

  /**
   * The browser's constraint validation, which runs before `onSubmit` fires:
   * name and unit are `required` (a non-empty value), quantity and threshold
   * carry `min="0"`. A draft that fails it is never submitted.
   */
  predicate PassesConstraints(d: InventoryItemData)
  {
    d.name != "" && d.unit != "" && d.quantity >= 0 && d.lowStockThreshold >= 0
  }

  /** Opening an item and submitting without edits submits that very item; a fresh form submits empty data. */
  lemma UnchangedFormResubmits(item: Option<InventoryItem>)
    ensures item.Some? ==> SubmittedRecord(item, DraftFor(item)) == Edited(item.value)
    ensures item.None? ==> SubmittedRecord(item, DraftFor(item)) == NewData(InventoryItemData("", 0, "", 0))
  {
  }

  class ItemForm {
    var item: Option<InventoryItem>
    var name: string
    var quantity: int
    var unit: string
    var lowStockThreshold: int
    var isAiLoading: bool
    var aiError: string

    /** The four input cells, as the record `handleSubmit` builds from them. */
    function Draft(): InventoryItemData
      reads this
    {
      InventoryItemData(name, quantity, unit, lowStockThreshold)
    }

    /** Mount: the initial cell values, then the init effect. */
    constructor (item: Option<InventoryItem>)
      ensures this.item == item && Draft() == DraftFor(item)
      ensures !isAiLoading && aiError == ""
    {
      this.item := item;
      name, quantity, unit, lowStockThreshold := "", 0, "", 0;
      isAiLoading, aiError := false, "";
      new;
      LoadDraft(item);
    }

    /** The effect on `[item]`: copy the item's fields into the draft, or reset it. */
    method LoadDraft(item: Option<InventoryItem>)
      modifies this
      ensures this.item == item && Draft() == DraftFor(item)
      ensures isAiLoading == old(isAiLoading) && aiError == old(aiError)
      ensures isAiLoading ==> !SuggestEnabled()
    {
      this.item := item;
      match item {
        case Some(it) =>
          name := it.name;
          quantity := it.quantity;
          unit := it.unit;
          lowStockThreshold := it.lowStockThreshold;
        case None =>
          name := "";
          quantity := 0;
          unit := "";
          lowStockThreshold := 0;
      }
    }

    /** The name input's change handler. */
    method SetName(value: string)
      modifies this`name
      ensures name == value
      ensures isAiLoading ==> !SuggestEnabled()
    {
      name := value;
    }

    /** The quantity input's change handler (`Number(e.target.value)`). */
    method SetQuantity(value: int)
      modifies this`quantity
      ensures quantity == value
      ensures isAiLoading ==> !SuggestEnabled()
    {
      quantity := value;
    }

    /** The unit input's change handler. */
    method SetUnit(value: string)
      modifies this`unit
      ensures unit == value
      ensures isAiLoading ==> !SuggestEnabled()
    {
      unit := value;
    }

    /** The threshold input's change handler (`Number(e.target.value)`). */
    method SetLowStockThreshold(value: int)
      modifies this`lowStockThreshold
      ensures lowStockThreshold == value
      ensures isAiLoading ==> !SuggestEnabled()
    {
      lowStockThreshold := value;
    }

    /**
     * Pressing the submit button: when the draft passes the constraint
     * validation, `handleSubmit` hands `onSave` its record; otherwise the
     * browser blocks the submit and nothing is handed on. The form itself does
     * not change.
     */
    method Submit() returns (r: Option<Submission>)
      ensures !PassesConstraints(Draft()) ==> r == None
      ensures PassesConstraints(Draft()) ==> r == Some(SubmittedRecord(item, Draft()))
      ensures r.Some? && item.None? ==> r.value == NewData(Draft())
      ensures r.Some? && item.Some? ==>
        r.value.Edited? && r.value.item.id == item.value.id && DataOf(r.value.item) == Draft()
      ensures r.Some? ==> Draft().name != "" && Draft().unit != "" && Draft().quantity >= 0
    {
      if !PassesConstraints(Draft()) {
        return None;
      }
      r := Some(SubmittedRecord(item, Draft()));
    }

    /** Whether the suggest button is enabled: `disabled={isAiLoading || !name}`. */
    predicate SuggestEnabled()
      reads this
      ensures SuggestEnabled() ==> name != ""
      ensures isAiLoading ==> !SuggestEnabled()
    {
      !isAiLoading && name != ""
    }

    /**
     * `handleAiSuggest` up to its `await`: with an empty name it only sets the
     * error message; otherwise it raises the loading flag, clears the error
     * and sends a request for the current name. The draft is never touched.
     */
    method BeginSuggest() returns (requested: Option<string>)
      modifies this`isAiLoading, this`aiError
      ensures Draft() == old(Draft())
      ensures old(name) == "" ==>
        requested == None && aiError == EmptyNameError && isAiLoading == old(isAiLoading)
      ensures old(name) != "" ==>
        requested == Some(old(name)) && aiError == "" && isAiLoading
      ensures old(SuggestEnabled()) ==> requested.Some?
      ensures requested.Some? ==> isAiLoading && !SuggestEnabled()
    {
      if name == "" {
        aiError := EmptyNameError;
        requested := None;
        return;
      }
      isAiLoading := true;
      aiError := "";
      requested := Some(name);
    }

    /**
     * `handleAiSuggest` after its `await`: a suggestion overwrites unit and
     * threshold only, `null` changes nothing, a failure sets the error message;
     * in every case the loading flag ends false.
     */
    method FinishSuggest(outcome: SuggestOutcome)
      modifies this`unit, this`lowStockThreshold, this`isAiLoading, this`aiError
      ensures !isAiLoading
      ensures name == old(name) && quantity == old(quantity)
      ensures outcome.Suggested? ==>
        unit == outcome.unit && lowStockThreshold == outcome.lowStockThreshold && aiError == old(aiError)
      ensures outcome.NoSuggestion? ==> Draft() == old(Draft()) && aiError == old(aiError)
      ensures outcome.RequestFailed? ==> Draft() == old(Draft()) && aiError == SuggestFailedError
    {
      match outcome {
        case Suggested(u, t) =>
          unit := u;
          lowStockThreshold := t;
        case NoSuggestion =>
        case RequestFailed =>
          aiError := SuggestFailedError;
      }
      isAiLoading := false;
    }

    /** One uninterrupted run of `handleAiSuggest`, with nothing edited while the request is out. */
    method AiSuggest(outcome: SuggestOutcome)
      modifies this`unit, this`lowStockThreshold, this`isAiLoading, this`aiError
      ensures name == old(name) && quantity == old(quantity)
      ensures old(name) == "" ==>
        Draft() == old(Draft()) && aiError == EmptyNameError && isAiLoading == old(isAiLoading)
      ensures old(name) != "" ==> !isAiLoading
      ensures old(name) != "" && outcome.Suggested? ==>
        unit == outcome.unit && lowStockThreshold == outcome.lowStockThreshold && aiError == ""
      ensures old(name) != "" && outcome.NoSuggestion? ==> Draft() == old(Draft()) && aiError == ""
      ensures old(name) != "" && outcome.RequestFailed? ==> Draft() == old(Draft()) && aiError == SuggestFailedError
    {
      var requested := BeginSuggest();
      if requested.Some? {
        FinishSuggest(outcome);
      }
    }
  }
}
