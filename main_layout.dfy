/**
 * The menu selection of the main layout (frontend/src/layouts/MainLayout.js):
 * the route path is mapped to the key of the menu entry to highlight.
 */
module MainLayout {
  import opened Text

  const InvoicesKey: string := "/invoices"
  const CustomersKey: string := "/customers"

  /** A key of the menu. */
  predicate IsMenuKey(key: string) {
    key == InvoicesKey || key == CustomersKey
  }

  /** `getSelectedKey`: the first menu key the path starts with, else the path itself. */
  function SelectedKey(path: string): (r: string)
    ensures StartsWith(path, InvoicesKey) <==> r == InvoicesKey
    ensures !StartsWith(path, InvoicesKey) && StartsWith(path, CustomersKey) <==> r == CustomersKey
    ensures !StartsWith(path, InvoicesKey) && !StartsWith(path, CustomersKey) ==> r == path
    ensures IsMenuKey(r) || r == path
  {
    if StartsWith(path, InvoicesKey) then InvoicesKey
    else if StartsWith(path, CustomersKey) then CustomersKey
    else path
  }

  /** Selecting again from a selected key gives the same key. */
  lemma SelectedKeyIdempotent(path: string)
    ensures SelectedKey(SelectedKey(path)) == SelectedKey(path)
  {
    var r := SelectedKey(path);
    if r == InvoicesKey {
      assert StartsWith(r, InvoicesKey);
    } else if r == CustomersKey {
      assert StartsWith(r, CustomersKey);
    }
  }

  /** The routes of the app select the entry their path names. */
  lemma RoutesSelectTheirEntry()
    ensures SelectedKey("/invoices/create") == InvoicesKey
    ensures SelectedKey("/invoices/42") == InvoicesKey
    ensures SelectedKey("/customers") == CustomersKey
    ensures SelectedKey("/") == "/"
  {
    assert StartsWith("/invoices/create", InvoicesKey);
    assert StartsWith("/invoices/42", InvoicesKey);
    assert StartsWith("/customers", CustomersKey);
    assert "/customers"[..|InvoicesKey|][1] != InvoicesKey[1];
  }
}
