/** main.py: the table-only backend. Its registry, parser, fetch and table endpoint are
    the ones of BIS.py (`Bis.Load`, `Bis.CreditTable`); only `/widgets.json` differs. */
module MainApp {
  import opened Common
  import opened Registry
  import Bis

  /** `/widgets.json` after import: the registry itself, which holds the table widget
      alone, its `id` defaulted to its endpoint. */
  method WidgetsAfterLoad<A, B>(endpoint: A -> B) returns (w: Widgets)
    ensures w == map[Bis.TableKey := Bis.TableConfig["id" := Bis.TableKey]]
    ensures w.Keys == {Bis.TableKey} && w[Bis.TableKey]["id"] == Bis.TableKey
  {
    var registry, handler := Bis.Load(endpoint);
    w := registry.Listing();
  }
}
