/** The name-to-class registry used to look link classes up for
  * deserialization. The Python registry is one class-level dictionary;
  * here it is one object whose map the registration mutates. */
module TransformRegistry {
  import opened Wrappers

  /** The link classes that can be registered. */
  datatype LinkClass = TransformLinkImmediateClass | TransformAccessorClass

  class Registry {
    var db: map<string, LinkClass>

    /** The registry starts empty, before any link module is imported. */
    constructor ()
      ensures db == map[]
    {
      db := map[];
    }

    /** `register_link`: bind the name, overwriting any earlier binding. */
    method RegisterLink(name: string, cls: LinkClass)
      modifies this
      ensures db == old(db)[name := cls]
      ensures forall other :: other != name ==> GetLinkClass(other) == old(GetLinkClass(other))
      ensures GetLinkClass(name) == Ok(cls)
    {
      db := db[name := cls];
    }

    /** `get_link_class`: the bound class, or a ValueError for an unknown
      * name. */
    function GetLinkClass(name: string): (r: Result<LinkClass>)
      reads this
      ensures r.Ok? <==> name in db
      ensures r.Ok? ==> r.value == db[name]
      ensures r.Err? ==> r.error == ValueError
    {
      if name !in db then Err(ValueError) else Ok(db[name])
    }
  }

  /** Importing the immediate-link module registers it under
    * "TransformImmediate". */
  method ImportLinks() returns (reg: Registry)
    ensures reg.GetLinkClass("TransformImmediate") == Ok(TransformLinkImmediateClass)
    ensures forall name :: name != "TransformImmediate" ==> reg.GetLinkClass(name) == Err(ValueError)
  {
    reg := new Registry();
    reg.RegisterLink("TransformImmediate", TransformLinkImmediateClass);
  }
}
