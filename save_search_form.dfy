/**
  The form that saves the current query (components/save-search-form.tsx): a
  name, and a category picked from the existing ones or typed in as new.
*/
module SaveSearchForm {
  import opened Wrappers
  import opened JsStrings

  const DefaultCategory := "General"

  /** `isAddingCategory ? newCategory.trim() || "General" : category`. */
  function FinalCategory(isAddingCategory: bool, newCategory: string, category: string): (r: string)
    ensures !isAddingCategory ==> r == category
    ensures isAddingCategory && !AllWhitespace(newCategory) ==> r == Trim(newCategory)
    ensures isAddingCategory && AllWhitespace(newCategory) ==> r == DefaultCategory
  {
    if isAddingCategory then
      var typed := Trim(newCategory);
      if typed != [] then typed else DefaultCategory
    else category
  }

  /** A new category is never empty and never starts or ends with whitespace. */
  lemma NewCategoryIsClean(newCategory: string, category: string)
    ensures var r := FinalCategory(true, newCategory, category);
            r != [] && !IsWhitespace(r[0]) && !IsWhitespace(r[|r| - 1])
  {
  }

  /** The category selected first: the first existing one, else "General". */
  function InitialCategory(categories: seq<string>): (c: string)
    ensures categories == [] ==> c == DefaultCategory
    ensures categories != [] ==> c in categories && c == categories[0]
  {
    if |categories| > 0 then categories[0] else DefaultCategory
  }

  class Form {
    var name: string
    var category: string
    var newCategory: string
    var isAddingCategory: bool

    constructor(categories: seq<string>)
      ensures name == "" && category == InitialCategory(categories)
      ensures newCategory == "" && !isAddingCategory
    {
      name := "";
      category := InitialCategory(categories);
      newCategory := "";
      isAddingCategory := false;
    }

    /** The save button is enabled exactly when the name holds a
        non-whitespace character. */
    function CanSave(): (ok: bool)
      reads this
      ensures ok <==> exists k :: 0 <= k < |name| && !IsWhitespace(name[k])
    {
      Trim(name) != []
    }

    /** `handleSave`: nothing for a blank name; otherwise the arguments of
        `onSave`, the name as typed (not trimmed) and the final category. */
    method HandleSave() returns (saved: Option<(string, string)>)
      ensures saved.None? <==> !CanSave()
      ensures saved.Some? ==> saved.value == (name, FinalCategory(isAddingCategory, newCategory, category))
    {
      if Trim(name) == [] {
        return None;
      }
      var finalCategory := FinalCategory(isAddingCategory, newCategory, category);
      return Some((name, finalCategory));
    }

    /** `handleAddCategory`: switch to typing a new category. */
    method HandleAddCategory()
      modifies this
      ensures isAddingCategory
      ensures name == old(name) && category == old(category) && newCategory == old(newCategory)
    {
      isAddingCategory := true;
    }

    /** The close button of the new-category input: back to selecting. */
    method CloseNewCategory()
      modifies this
      ensures !isAddingCategory
      ensures name == old(name) && category == old(category) && newCategory == old(newCategory)
    {
      isAddingCategory := false;
    }

    method SetName(value: string)
      modifies this
      ensures name == value
      ensures category == old(category) && newCategory == old(newCategory) && isAddingCategory == old(isAddingCategory)
    {
      name := value;
    }

    method SetCategory(value: string)
      modifies this
      ensures category == value
      ensures name == old(name) && newCategory == old(newCategory) && isAddingCategory == old(isAddingCategory)
    {
      category := value;
    }

    method SetNewCategory(value: string)
      modifies this
      ensures newCategory == value
      ensures name == old(name) && category == old(category) && isAddingCategory == old(isAddingCategory)
    {
      newCategory := value;
    }
  }
}
