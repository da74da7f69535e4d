/** The content cache of `ConfigSource` and the two pieces of code that use it. */
module ConfigObject {
  import opened Basics
  import opened ConfigProtocol

  type Hexsha = string
  type Config = string

  class ConfigSource {
    var order: Lru
    var contents: map<Hexsha, Config>

    ghost predicate Valid()
      reads this
    {
      && Distinct(order) && |order| <= CAPACITY
      && (forall h :: h in order <==> h in contents)
    }

    constructor ()
      ensures Valid() && order == []
    {
      order, contents := [], map[];
    }

    // `_content_cache[hexsha]`; None is the KeyError.
    method Index(hexsha: Hexsha) returns (config: Option<Config>)
      requires Valid()
      modifies this
      ensures Valid() && contents == old(contents)
      ensures order == if hexsha in old(order) then Touch(old(order), hexsha) else old(order)
      ensures order == if |old(order)| == 2 && hexsha == old(order)[0] then [old(order)[1], hexsha] else old(order)
      ensures config == if hexsha in old(contents) then Some(old(contents)[hexsha]) else None
    {
      if hexsha in contents {
        DropKeepsOthers(order, hexsha);
        order := Touch(order, hexsha);
        config := Some(contents[hexsha]);
      } else {
        config := None;
      }
    }

    /**
     `_read_config_work`, given what `latest_revision` found and what `read_raw`
     returns for it, None when it raises. On success the revision is in the
     content cache before it is returned.
     */
    method ReadConfigWork(hexsha: Hexsha, raw: Option<Config>) returns (r: Option<Hexsha>)
      requires Valid()
      modifies this
      ensures Valid()
      ensures r == if hexsha in old(order) || raw.Some? then Some(hexsha) else None
      ensures order == if r.Some? then Admit(old(order), hexsha) else old(order)
      ensures hexsha in old(order) || raw.None? ==> order == old(order) && contents == old(contents)
      ensures hexsha !in old(order) && raw.Some? ==>
                order == (if |old(order)| == 2 then [old(order)[1]] else old(order)) + [hexsha]
      ensures r.Some? ==> hexsha in contents
      ensures forall h :: h in contents && h in old(contents) ==> contents[h] == old(contents)[h]
      ensures hexsha !in old(order) && raw.Some? ==> hexsha in contents && contents[hexsha] == raw.value
    {
      if hexsha !in contents {
        if raw.None? { return None; }
        if |order| >= CAPACITY {
          assert order == [order[0], order[1]];
          contents := map h | h in contents && h != order[0] :: contents[h];
          order := order[1..];
        }
        contents := contents[hexsha := raw.value];
        order := order + [hexsha];
      }
      r := Some(hexsha);
    }
  }
}
