/**
 * The notifications page: the send form (selected rows, message, schedule date, interval,
 * category) with its validation and reset, and the category list, whose five default entries
 * cannot be deleted.
 */
module Notification {
  import opened Options
  import opened Seqs
  import opened Text

  /** The categories the page starts with; `handleDeleteCategory` refuses to remove these. */
  const DefaultCategories: seq<string> := ["Goals", "Investments", "Budget", "Udhaar", "Transactions"]

  predicate IsDefault(cat: string)
  {
    cat in DefaultCategories
  }

  /** Every default category is still in the list. */
  predicate DefaultsPresent(categories: seq<string>)
  {
    forall i :: 0 <= i < |DefaultCategories| ==> DefaultCategories[i] in categories
  }

  /**
   * The guard of `handleSendNotification`: nothing selected, a blank message, or no category.
   * An empty message is refused; a message that starts with a visible character is not.
   */
  predicate SendRejected(selectedCount: nat, message: string, category: string)
    ensures message == "" ==> SendRejected(selectedCount, message, category)
    ensures selectedCount > 0 && category != "" && message != "" && !IsWhitespace(message[0])
            ==> !SendRejected(selectedCount, message, category)
  {
    TrimEndSpec(message);
    selectedCount == 0 || IsBlank(message) || category == ""
  }

  /** A send is refused exactly when no row is selected, the message is all whitespace, or no category is chosen. */
  lemma SendRejectedIff(selectedCount: nat, message: string, category: string)
    ensures SendRejected(selectedCount, message, category)
        <==> selectedCount == 0 || (forall i :: 0 <= i < |message| ==> IsWhitespace(message[i])) || category == ""
  {
    BlankIffAllWhitespace(message);
  }

  /** The list after `handleAddCategory` with `name` typed in the box. */
  function AddCategory(categories: seq<string>, name: string): (r: seq<string>)
    ensures !IsBlank(name) ==> |r| == |categories| + 1 && r[..|categories|] == categories && r[|categories|] == name
    ensures IsBlank(name) ==> r == categories
  {
    if !IsBlank(name) then categories + [name] else categories
  }

  /** A name made only of whitespace is refused; there is no duplicate check, so a repeated name is appended again. */
  lemma AddCategoryCases(categories: seq<string>, name: string)
    ensures (forall i :: 0 <= i < |name| ==> IsWhitespace(name[i])) ==> AddCategory(categories, name) == categories
    ensures (exists i :: 0 <= i < |name| && !IsWhitespace(name[i])) ==> AddCategory(categories, name) == categories + [name]
  {
    BlankIffAllWhitespace(name);
  }

  /** The list after `handleDeleteCategory(cat)`. */
  function DeleteCategory(categories: seq<string>, cat: string): (r: seq<string>)
    ensures IsDefault(cat) ==> r == categories
    ensures !IsDefault(cat) ==> forall c :: c in r <==> c in categories && c != cat
  {
    if IsDefault(cat) then categories else Filter(c => c != cat, categories)
  }

  /** Deleting a name that is not a default removes every copy of it and keeps the rest in order. */
  lemma DeleteKeepsOrder(categories: seq<string>, cat: string)
    ensures IsSubsequence(DeleteCategory(categories, cat), categories)
    ensures !IsDefault(cat) ==> |DeleteCategory(categories, cat)| == |categories| - Count(c => c == cat, categories)
  {
    if IsDefault(cat) {
      FilterIsSubsequence(c => true, categories);
      FilterKeepsAll(c => true, categories);
    } else {
      FilterIsSubsequence(c => c != cat, categories);
      CountComplement(c => c != cat, c => c == cat, categories);
    }
  }

  /** Neither an add nor a delete can remove a default category. */
  lemma OperationsKeepDefaults(categories: seq<string>, name: string)
    requires DefaultsPresent(categories)
    ensures DefaultsPresent(AddCategory(categories, name))
    ensures DefaultsPresent(DeleteCategory(categories, name))
  {
  }

  datatype CategoryEdit = Add(name: string) | Delete(name: string)

  /** The list after a series of adds and deletes, applied in order. */
  function ApplyEdits(categories: seq<string>, edits: seq<CategoryEdit>): seq<string>
    decreases |edits|
  {
    if edits == [] then categories
    else
      var next := match edits[0]
        case Add(name) => AddCategory(categories, name)
        case Delete(name) => DeleteCategory(categories, name);
      ApplyEdits(next, edits[1..])
  }

  /** The five defaults survive any series of adds and deletes. */
  lemma {:induction false} DefaultsSurvive(categories: seq<string>, edits: seq<CategoryEdit>)
    requires DefaultsPresent(categories)
    ensures DefaultsPresent(ApplyEdits(categories, edits))
    decreases |edits|
  {
    if edits != [] {
      OperationsKeepDefaults(categories, edits[0].name);
      var next := match edits[0]
        case Add(name) => AddCategory(categories, name)
        case Delete(name) => DeleteCategory(categories, name);
      DefaultsSurvive(next, edits[1..]);
    }
  }

  /** The page state; `selectedRows` stands for the table's row selection. */
  class NotificationPage {
    var selectedRows: set<int>
    var message: string
    var scheduleDate: Option<int>
    var category: string
    var newCategory: string
    var categories: seq<string>
    var isModalOpen: bool
    var interval: string

    ghost predicate Valid()
      reads this
    {
      DefaultsPresent(categories)
    }

    constructor ()
      ensures Valid()
      ensures categories == DefaultCategories
      ensures selectedRows == {} && message == "" && scheduleDate == None && category == ""
      ensures newCategory == "" && !isModalOpen && interval == ""
    {
      selectedRows := {};
      message := "";
      scheduleDate := None;
      category := "";
      newCategory := "";
      categories := DefaultCategories;
      isModalOpen := false;
      interval := "";
    }

    /**
     * `handleSendNotification`: `sent` is the success toast. A send resets the selection, the
     * message, the schedule date and the interval, and keeps the category; a refusal changes nothing.
     */
    method HandleSendNotification() returns (sent: bool)
      requires Valid()
      modifies this
      ensures Valid()
      ensures sent <==> !SendRejected(|old(selectedRows)|, old(message), old(category))
      ensures sent ==> selectedRows == {} && message == "" && scheduleDate == None && interval == ""
      ensures !sent ==> (selectedRows == old(selectedRows) && message == old(message)
                         && scheduleDate == old(scheduleDate) && interval == old(interval))
      ensures category == old(category) && categories == old(categories)
      ensures newCategory == old(newCategory) && isModalOpen == old(isModalOpen)
    {
      if |selectedRows| == 0 || IsBlank(message) || category == "" {
        return false;
      }
      selectedRows := {};
      message := "";
      scheduleDate := None;
      interval := "";
      return true;
    }

    /** `handleAddCategory`: on success the box is cleared and the dialog closed. */
    method HandleAddCategory() returns (added: bool)
      requires Valid()
      modifies this
      ensures Valid()
      ensures categories == AddCategory(old(categories), old(newCategory))
      ensures added <==> !IsBlank(old(newCategory))
      ensures added ==> newCategory == "" && !isModalOpen
      ensures !added ==> newCategory == old(newCategory) && isModalOpen == old(isModalOpen)
      ensures selectedRows == old(selectedRows) && message == old(message) && scheduleDate == old(scheduleDate)
      ensures category == old(category) && interval == old(interval)
    {
      if !IsBlank(newCategory) {
        categories := categories + [newCategory];
        newCategory := "";
        isModalOpen := false;
        return true;
      }
      return false;
    }

    /** `handleDeleteCategory(cat)`: `deleted` is the success toast. */
    method HandleDeleteCategory(cat: string) returns (deleted: bool)
      requires Valid()
      modifies this
      ensures Valid()
      ensures categories == DeleteCategory(old(categories), cat)
      ensures deleted <==> !IsDefault(cat)
      ensures selectedRows == old(selectedRows) && message == old(message) && scheduleDate == old(scheduleDate)
      ensures category == old(category) && newCategory == old(newCategory)
      ensures isModalOpen == old(isModalOpen) && interval == old(interval)
    {
      if !(cat in ["Goals", "Investments", "Budget", "Udhaar", "Transactions"]) {
        categories := Filter(c => c != cat, categories);
        return true;
      }
      return false;
    }
  }
}
