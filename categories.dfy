/** The categories page: a name field to add a category, a list with an
    inline editor (at most one category in edit mode) and a Delete button
    behind a confirmation. */
module Categories {
  import opened Common

  const ListRequest: Request := Get("/categories", [])

  class CategoriesView {
    var name: string
    var categories: seq<Category>
    var editingCategory: Option<Category>
    var editName: string

    constructor ()
      ensures name == "" && categories == [] && editingCategory == None && editName == ""
    {
      name, categories, editingCategory, editName := "", [], None, "";
    }

    /** `loadCategories()`: one GET; a successful answer replaces the list. */
    method LoadCategories(reply: Outcome<seq<Category>>) returns (trace: seq<Effect>)
      modifies this`categories
      ensures trace == [Send(ListRequest)]
      ensures reply.Success? ==> categories == reply.value
      ensures reply.Failure? ==> unchanged(this)
    {
      trace := [Send(ListRequest)];
      if reply.Success? {
        categories := reply.value;
      }
    }

    /** `createCategory`: an empty name only raises an error toast; otherwise
        POST the name; on success clear the field and reload the list, on
        failure keep the field as typed. */
    method CreateCategory(reply: Outcome<()>, reloadReply: Outcome<seq<Category>>) returns (trace: seq<Effect>)
      modifies this`name, this`categories
      ensures old(name) == "" ==>
        trace == [Show(ToastError("Category name required"))] && unchanged(this)
      ensures old(name) != "" && reply.Failure? ==>
        trace == [Send(Post("/categories", CategoryPayload(old(name)))), Show(ToastError("Failed to add category"))]
        && unchanged(this)
      ensures old(name) != "" && reply.Success? ==>
        trace == [Send(Post("/categories", CategoryPayload(old(name)))), Show(ToastSuccess("Category added")), Send(ListRequest)]
        && name == ""
        && (reloadReply.Success? ==> categories == reloadReply.value)
        && (reloadReply.Failure? ==> categories == old(categories))
    {
      if name == "" {
        trace := [Show(ToastError("Category name required"))];
        return;
      }
      trace := [Send(Post("/categories", CategoryPayload(name)))];
      if reply.Failure? {
        trace := trace + [Show(ToastError("Failed to add category"))];
        return;
      }
      trace := trace + [Show(ToastSuccess("Category added"))];
      name := "";
      var reload := LoadCategories(reloadReply);
      trace := trace + reload;
    }

    /** The Edit button of a category: that category enters edit mode with
        its name in the editor. */
    method StartEdit(cat: Category)
      modifies this`editingCategory, this`editName
      ensures editingCategory == Some(cat) && editName == cat.name
    {
      editingCategory := Some(cat);
      editName := cat.name;
    }

    /** `updateCategory`: an empty editor only raises an error toast and stays
        in edit mode; otherwise PUT the new name; success leaves edit mode and
        reloads, failure keeps the editor as it is. With no category in edit
        mode, reading its id throws before any request and the catch reports
        the failure. */
    method UpdateCategory(reply: Outcome<()>, reloadReply: Outcome<seq<Category>>) returns (trace: seq<Effect>)
      modifies this`editingCategory, this`editName, this`categories
      ensures old(editName) == "" ==>
        trace == [Show(ToastError("Category name required"))] && unchanged(this)
      ensures old(editName) != "" && old(editingCategory).None? ==>
        trace == [Show(ToastError("Failed to update category"))] && unchanged(this)
      ensures old(editName) != "" && old(editingCategory).Some? && reply.Failure? ==>
        trace == [Send(Put("/categories/" + old(editingCategory).value.id, CategoryPayload(old(editName)))),
                  Show(ToastError("Failed to update category"))]
        && unchanged(this)
      ensures old(editName) != "" && old(editingCategory).Some? && reply.Success? ==>
        trace == [Send(Put("/categories/" + old(editingCategory).value.id, CategoryPayload(old(editName)))),
                  Show(ToastSuccess("Category updated")), Send(ListRequest)]
        && editingCategory == None && editName == ""
        && (reloadReply.Success? ==> categories == reloadReply.value)
        && (reloadReply.Failure? ==> categories == old(categories))
    {
      if editName == "" {
        trace := [Show(ToastError("Category name required"))];
        return;
      }
      if editingCategory.None? {
        trace := [Show(ToastError("Failed to update category"))];
        return;
      }
      trace := [Send(Put("/categories/" + editingCategory.value.id, CategoryPayload(editName)))];
      if reply.Failure? {
        trace := trace + [Show(ToastError("Failed to update category"))];
        return;
      }
      trace := trace + [Show(ToastSuccess("Category updated"))];
      editingCategory := None;
      editName := "";
      var reload := LoadCategories(reloadReply);
      trace := trace + reload;
    }

    /** `deleteCategory(id)`: nothing is sent unless the user confirms; a
        successful DELETE reloads the list, a failed one only reports. */
    method DeleteCategory(id: string, confirmed: bool, reply: Outcome<()>, reloadReply: Outcome<seq<Category>>)
      returns (trace: seq<Effect>)
      modifies this`categories
      ensures !confirmed ==> trace == [] && unchanged(this)
      ensures confirmed && reply.Failure? ==>
        trace == [Send(Delete("/categories/" + id)), Show(ToastError("Failed to delete category"))]
        && unchanged(this)
      ensures confirmed && reply.Success? ==>
        trace == [Send(Delete("/categories/" + id)), Show(ToastSuccess("Category deleted")), Send(ListRequest)]
        && (reloadReply.Success? ==> categories == reloadReply.value)
        && (reloadReply.Failure? ==> categories == old(categories))
    {
      if !confirmed {
        trace := [];
        return;
      }
      trace := [Send(Delete("/categories/" + id))];
      if reply.Failure? {
        trace := trace + [Show(ToastError("Failed to delete category"))];
        return;
      }
      trace := trace + [Show(ToastSuccess("Category deleted"))];
      var reload := LoadCategories(reloadReply);
      trace := trace + reload;
    }
  }
}
