/** The part of Redis that deduplication uses: idempotency keys and sharded Bloom filters. */
module RedisDedup {
  import opened Keys

  /** What the client sees of one command; a lost command may still have been applied. */
  datatype Reply = Answered | Lost(applied: bool) {
    predicate Effective() {
      Answered? || applied
    }
  }

  /** `bloom` maps a filter to the ids added to it: BF.EXISTS never denies one of those. */
  datatype Redis = Redis(idem: set<string>, bloom: map<string, set<string>>) {
    predicate InBloom(filter: string, id: string) {
      filter in bloom && id in bloom[filter]
    }

    function Reserve(filter: string, reply: Reply): Redis {
      if reply.Effective() && filter !in bloom then this.(bloom := bloom[filter := {}]) else this
    }

    function Add(filter: string, id: string, reply: Reply): Redis {
      if reply.Effective()
      then this.(bloom := bloom[filter := (if filter in bloom then bloom[filter] else {}) + {id}])
      else this
    }

    function SetNX(key: string, reply: Reply): Redis {
      if reply.Effective() then this.(idem := idem + {key}) else this
    }

    function SetNXAnswer(key: string, reply: Reply): Option<bool> {
      if reply.Answered? then Some(key !in idem) else None
    }

    function Del(key: string, reply: Reply): Redis {
      if reply.Effective() then this.(idem := idem - {key}) else this
    }

    /** `falsePositive` is what the filter says of an id that was never added. */
    function ExistsAnswer(filter: string, id: string, falsePositive: bool, reply: Reply): Option<bool> {
      if reply.Answered? then Some(InBloom(filter, id) || falsePositive) else None
    }

    /** Everything this Redis holds is still there in `later`. */
    ghost predicate GrowsTo(later: Redis) {
      && idem <= later.idem
      && forall filter, id :: InBloom(filter, id) ==> later.InBloom(filter, id)
    }
  }

  class Server {
    var idem: set<string>
    var bloom: map<string, set<string>>

    ghost function View(): Redis
      reads this
    {
      Redis(idem, bloom)
    }

    constructor (idem: set<string>, bloom: map<string, set<string>>)
      ensures View() == Redis(idem, bloom)
    {
      this.idem, this.bloom := idem, bloom;
    }

    method BfReserve(filter: string, reply: Reply)
      modifies this
      ensures View() == old(View()).Reserve(filter, reply)
    {
      if reply.Effective() && filter !in bloom {
        bloom := bloom[filter := {}];
      }
    }

    method BfExists(filter: string, id: string, falsePositive: bool, reply: Reply) returns (answer: Option<bool>)
      ensures answer == View().ExistsAnswer(filter, id, falsePositive, reply)
    {
      if reply.Answered? {
        answer := Some((filter in bloom && id in bloom[filter]) || falsePositive);
      } else {
        answer := None;
      }
    }

    method BfAdd(filter: string, id: string, reply: Reply)
      modifies this
      ensures View() == old(View()).Add(filter, id, reply)
    {
      if reply.Effective() {
        bloom := bloom[filter := (if filter in bloom then bloom[filter] else {}) + {id}];
      }
    }

    method SetNX(key: string, reply: Reply) returns (answer: Option<bool>)
      modifies this
      ensures View() == old(View()).SetNX(key, reply)
      ensures answer == old(View()).SetNXAnswer(key, reply)
    {
      answer := if reply.Answered? then Some(key !in idem) else None;
      if reply.Effective() {
        idem := idem + {key};
      }
    }

    method Del(key: string, reply: Reply)
      modifies this
      ensures View() == old(View()).Del(key, reply)
    {
      if reply.Effective() {
        idem := idem - {key};
      }
    }
  }
}
