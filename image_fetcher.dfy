/**
 * The desktop client's on-demand image download (forge.ImageFetcher): an image
 * key is resolved to a download URL and a cache destination, requests for the
 * same destination are merged into one in-flight download whose observers are
 * all notified when it completes, and the token URL table is read once.
 *
 * The thread pool and the event-dispatch queue are modelled as two explicit
 * queues (tasks, notifications) that the environment drains one step at a time;
 * the card database, the file-name helpers and the token list file are
 * parameters.
 */
module ImageFetcher {
  import opened Wrappers
  import opened Text

  /** ImageKeys.CARD_PREFIX, ImageKeys.TOKEN_PREFIX and ImageKeys.BACKFACE_POSTFIX. */
  const CARD_PREFIX: string := "c:"
  const TOKEN_PREFIX: string := "t:"
  const BACKFACE_POSTFIX: string := "$alt"

  const CARD_SCAN_BASE: string := "http://magiccards.info/scans/en/"
  const JPG: string := ".jpg"

  /** A CachedCardImage, by identity. */
  type Observer = nat

  /** CACHE_CARD_PICS_DIR and CACHE_TOKEN_PICS_DIR. */
  datatype Dir = CardPics | TokenPics

  /** An absolute destination path: a cache directory and a file name in it. */
  datatype Dest = Dest(dir: Dir, file: string)

  datatype PaperCard = PaperCard(name: string, edition: string, hasOtherPart: bool)

  /** The library lookups the resolution relies on. */
  datatype CardDb = CardDb(
    /** ImageUtil.getPaperCardFromImageKey */
    paperCardOf: string -> Option<PaperCard>,
    /** ImageUtil.getImageKey(card, backFace, false) */
    imageFileOf: (PaperCard, bool) -> string,
    /** getCardCollectorNumber(name, edition), -1 when unknown */
    collectorNumber: (string, string) -> int,
    /** getEditions().getCode2ByCode(edition) */
    code2Of: string -> string,
    /** ImageUtil.getDownloadUrlAndDestination(...)[0], None when it returns null */
    fallbackUrl: (PaperCard, bool) -> Option<string>)

  /** A download to run: where from and where to. */
  datatype Request = Request(url: string, dest: Dest)

  /** Why a key produced no download. */
  datatype Rejection =
    | KeyTooShort       // substring(0, 2) throws before anything is changed
    | CardNotFound
    | NoDownloadUrl
    | TokenNotListed
    | UnknownPrefix

  /** What a fetchImage call did. */
  datatype Outcome =
    | Rejected(reason: Rejection)
    | Joined(dest: Dest)            // added to the observers of a download already in flight
    | Submitted(request: Request)   // a new download was started

  // ---------------------------------------------------------------------------
  // Key resolution

  /** "a" or "b" for the two faces of a multi-part card, nothing otherwise. */
  function Suffix(card: PaperCard, backFace: bool): string {
    if card.hasOtherPart then (if backFace then "b" else "a") else ""
  }

  /** The scan URL for a set code and collector number. */
  function CardUrl(setCode: string, cardNum: int, suffix: string): string {
    CARD_SCAN_BASE + ToLower(setCode) + "/" + DecimalString(cardNum) + suffix + JPG
  }

  /** A card key: the scan URL when the collector number is known, the fallback URL otherwise. */
  function ResolveCard(key: string, db: CardDb): Result<Request, Rejection> {
    match db.paperCardOf(key)
    case None => Err(CardNotFound)
    case Some(card) =>
      var backFace := EndsWith(key, BACKFACE_POSTFIX);
      var dest := Dest(CardPics, db.imageFileOf(card, backFace) + JPG);
      var num := db.collectorNumber(card.name, card.edition);
      if num != -1 then Ok(Request(CardUrl(db.code2Of(card.edition), num, Suffix(card, backFace)), dest))
      else match db.fallbackUrl(card, backFace)
        case None => Err(NoDownloadUrl)
        case Some(url) => Ok(Request(url, dest))
  }

  /** The token file name: the key without its prefix, plus ".jpg". */
  function TokenFile(key: string): string
    requires |key| >= 2
  {
    key[2..] + JPG
  }

  /** A token key: looked up by file name in the token table. */
  function ResolveToken(key: string, table: map<string, string>): Result<Request, Rejection>
    requires |key| >= 2
  {
    var file := TokenFile(key);
    if file in table then Ok(Request(table[file], Dest(TokenPics, file))) else Err(TokenNotListed)
  }

  predicate IsTokenKey(key: string) {
    |key| >= 2 && key[..2] == TOKEN_PREFIX
  }

  predicate IsCardKey(key: string) {
    |key| >= 2 && key[..2] == CARD_PREFIX
  }

  /** The key's two-character prefix picks the lookup. */
  function Resolve(key: string, db: CardDb, table: map<string, string>): (r: Result<Request, Rejection>)
    ensures r == Err(KeyTooShort) <==> |key| < 2
    ensures r == Err(UnknownPrefix) <==> |key| >= 2 && key[..2] != CARD_PREFIX && key[..2] != TOKEN_PREFIX
    ensures r.Ok? ==> (r.value.dest.dir == TokenPics <==> IsTokenKey(key))
    ensures r.Ok? && IsTokenKey(key) ==>
      TokenFile(key) in table && r.value == Request(table[TokenFile(key)], Dest(TokenPics, TokenFile(key)))
    ensures IsTokenKey(key) ==> (r.Ok? <==> TokenFile(key) in table)
    ensures IsCardKey(key) && db.paperCardOf(key).None? ==> r == Err(CardNotFound)
    ensures IsCardKey(key) && db.paperCardOf(key).Some? ==>
      var card := db.paperCardOf(key).value;
      var backFace := EndsWith(key, BACKFACE_POSTFIX);
      var dest := Dest(CardPics, db.imageFileOf(card, backFace) + JPG);
      var num := db.collectorNumber(card.name, card.edition);
      && (num != -1 ==> r == Ok(Request(CardUrl(db.code2Of(card.edition), num, Suffix(card, backFace)), dest)))
      && (num == -1 && db.fallbackUrl(card, backFace).None? ==> r == Err(NoDownloadUrl))
      && (num == -1 && db.fallbackUrl(card, backFace).Some? ==>
            r == Ok(Request(db.fallbackUrl(card, backFace).value, dest)))
  {
    if |key| < 2 then Err(KeyTooShort)
    else if key[..2] == CARD_PREFIX then ResolveCard(key, db)
    else if key[..2] == TOKEN_PREFIX then ResolveToken(key, table)
    else Err(UnknownPrefix)
  }

  /**
   * The character before ".jpg" in a scan URL is 'b' exactly for the back face
   * of a multi-part card, 'a' exactly for its front face, and the last digit of
   * the collector number otherwise.
   */
  lemma CardUrlSuffix(setCode: string, cardNum: int, card: PaperCard, backFace: bool)
    ensures var url := CardUrl(setCode, cardNum, Suffix(card, backFace));
      var c := url[|url| - |JPG| - 1];
      && url[|url| - |JPG|..] == JPG
      && (c == 'b' <==> card.hasOtherPart && backFace)
      && (c == 'a' <==> card.hasOtherPart && !backFace)
      && (!card.hasOtherPart <==> IsDigit(c))
  {
    var digits := DecimalString(cardNum);
    var head := CARD_SCAN_BASE + ToLower(setCode) + "/" + digits;
    var url := CardUrl(setCode, cardNum, Suffix(card, backFace));
    assert url == head + Suffix(card, backFace) + JPG;
    if card.hasOtherPart {
      assert url[|url| - |JPG| - 1] == Suffix(card, backFace)[0];
    } else {
      assert url == head + JPG;
      assert url[|url| - |JPG| - 1] == head[|head| - 1] == digits[|digits| - 1];
    }
  }

  /**
   * For a card key resolved to a scan URL, the character before ".jpg" is 'b'
   * exactly when the card has two parts and the key ends in "$alt", 'a' exactly
   * for the other face of a two-part card, and a digit for a one-part card.
   */
  lemma CardKeyFace(key: string, db: CardDb, table: map<string, string>)
    requires IsCardKey(key) && db.paperCardOf(key).Some?
    requires var card := db.paperCardOf(key).value; db.collectorNumber(card.name, card.edition) != -1
    ensures var card := db.paperCardOf(key).value;
      var r := Resolve(key, db, table);
      && r.Ok? && r.value.dest.dir == CardPics
      && var url := r.value.url;
      && |url| > |JPG|
      && (url[|url| - |JPG| - 1] == 'b' <==> card.hasOtherPart && EndsWith(key, BACKFACE_POSTFIX))
      && (url[|url| - |JPG| - 1] == 'a' <==> card.hasOtherPart && !EndsWith(key, BACKFACE_POSTFIX))
      && (IsDigit(url[|url| - |JPG| - 1]) <==> !card.hasOtherPart)
  {
    var card := db.paperCardOf(key).value;
    var backFace := EndsWith(key, BACKFACE_POSTFIX);
    CardUrlSuffix(db.code2Of(card.edition), db.collectorNumber(card.name, card.edition), card, backFace);
  }

  /** Distinct token keys never share a destination, so each token has its own in-flight entry. */
  lemma TokenDestInjective(k1: string, k2: string)
    requires IsTokenKey(k1) && IsTokenKey(k2)
    requires TokenFile(k1) == TokenFile(k2)
    ensures k1 == k2
  {
    var a, b := k1[2..], k2[2..];
    assert |a| == |b|;
    forall i | 0 <= i < |a|
      ensures a[i] == b[i]
    {
      assert a[i] == TokenFile(k1)[i] && b[i] == TokenFile(k2)[i];
    }
    assert a == b;
    assert k1 == k1[..2] + a && k2 == k2[..2] + b;
  }

  // ---------------------------------------------------------------------------
  // The token table

  /** The map built by putting the pairs in order: a later pair overrides an earlier one. */
  function TableOf(pairs: seq<(string, string)>): map<string, string>
    decreases |pairs|
  {
    if pairs == [] then map[]
    else TableOf(pairs[..|pairs| - 1])[pairs[|pairs| - 1].0 := pairs[|pairs| - 1].1]
  }

  /** A name is in the table exactly when some pair has it. */
  lemma {:induction false} TableOfHas(pairs: seq<(string, string)>, name: string)
    ensures name in TableOf(pairs) <==> exists i :: 0 <= i < |pairs| && pairs[i].0 == name
    decreases |pairs|
  {
    if pairs != [] {
      var init := pairs[..|pairs| - 1];
      TableOfHas(init, name);
      if exists i :: 0 <= i < |init| && init[i].0 == name {
        var i :| 0 <= i < |init| && init[i].0 == name;
        assert pairs[i].0 == name;
      }
      if exists i :: 0 <= i < |pairs| && pairs[i].0 == name {
        var i :| 0 <= i < |pairs| && pairs[i].0 == name;
        if i < |init| {
          assert init[i].0 == name;
        }
      }
    }
  }

  /** The last pair with a given name decides its value. */
  lemma {:induction false} TableOfLast(pairs: seq<(string, string)>, i: nat)
    requires i < |pairs|
    requires forall j :: i < j < |pairs| ==> pairs[j].0 != pairs[i].0
    ensures pairs[i].0 in TableOf(pairs) && TableOf(pairs)[pairs[i].0] == pairs[i].1
    decreases |pairs|
  {
    if i < |pairs| - 1 {
      var init := pairs[..|pairs| - 1];
      assert init[i] == pairs[i];
      forall j | i < j < |init|
        ensures init[j].0 != init[i].0
      {
        assert init[j] == pairs[j];
      }
      TableOfLast(init, i);
    }
  }

  /** The loop that fills tokenImages from the list file's name/URL pairs. */
  method BuildTokenTable(pairs: seq<(string, string)>) returns (table: map<string, string>)
    ensures table == TableOf(pairs)
  {
    table := map[];
    for i := 0 to |pairs|
      invariant table == TableOf(pairs[..i])
    {
      assert pairs[..i + 1][..i] == pairs[..i];
      table := table[pairs[i].0 := pairs[i].1];
    }
    assert pairs[..|pairs|] == pairs;
  }

  // ---------------------------------------------------------------------------
  // The in-flight table

  /** An observer joins the entry for a destination, which is created if missing. */
  function Register(fetches: map<Dest, set<Observer>>, dest: Dest, observer: Observer): (r: map<Dest, set<Observer>>)
    ensures r.Keys == fetches.Keys + {dest}
    ensures r[dest] == (if dest in fetches then fetches[dest] else {}) + {observer}
    ensures forall d :: d in fetches && d != dest ==> r[d] == fetches[d]
  {
    if dest in fetches then fetches[dest := fetches[dest] + {observer}] else fetches[dest := {observer}]
  }

  /** What fetchImage does with a resolved key, given the table before the call. */
  function OutcomeOf(res: Result<Request, Rejection>, fetches: map<Dest, set<Observer>>): Outcome {
    match res
    case Err(e) => Rejected(e)
    case Ok(req) => if req.dest in fetches then Joined(req.dest) else Submitted(req)
  }

  /** The loop over a set of observers: each is visited exactly once, in some order. */
  method VisitOnce(observers: set<Observer>) returns (calls: seq<Observer>)
    ensures multiset(calls) == multiset(observers)
  {
    calls := [];
    var rest := observers;
    while rest != {}
      invariant rest <= observers
      invariant multiset(calls) + multiset(rest) == multiset(observers)
      decreases rest
    {
      var o :| o in rest;
      assert multiset(rest) == multiset(rest - {o}) + multiset{o};
      calls := calls + [o];
      rest := rest - {o};
    }
  }

  /** Visiting a set calls every member once and nothing else. */
  lemma VisitedOncePerObserver(observers: set<Observer>, calls: seq<Observer>, o: Observer)
    requires multiset(calls) == multiset(observers)
    ensures multiset(calls)[o] == if o in observers then 1 else 0
    ensures o in calls <==> o in observers
  {
  }

  class Fetcher {
    /** currentFetches: destination path to the observers waiting for it. */
    var currentFetches: map<Dest, set<Observer>>
    /** tokenImages: null until the first token key. */
    var tokenImages: Option<map<string, string>>
    /** Downloads submitted to the thread pool and not yet run. */
    var tasks: seq<Request>
    /** notifyObservers runnables posted to the event queue and not yet run, by destination. */
    var notifications: seq<Dest>
    /** Every onImageFetched call, in order. */
    var fetched: seq<Observer>

    /**
     * Every in-flight download (queued or waiting to notify) has an entry, no
     * destination is in flight twice, and no entry is empty.
     */
    predicate Valid()
      reads this
    {
      && (forall i :: 0 <= i < |tasks| ==> tasks[i].dest in currentFetches)
      && (forall i :: 0 <= i < |notifications| ==> notifications[i] in currentFetches)
      && (forall i, j :: 0 <= i < j < |tasks| ==> tasks[i].dest != tasks[j].dest)
      && (forall i, j :: 0 <= i < j < |notifications| ==> notifications[i] != notifications[j])
      && (forall i, j :: 0 <= i < |tasks| && 0 <= j < |notifications| ==> tasks[i].dest != notifications[j])
      && (forall d :: d in currentFetches ==> currentFetches[d] != {})
    }

    constructor ()
      ensures Valid()
      ensures currentFetches == map[] && tokenImages.None? && tasks == [] && notifications == [] && fetched == []
    {
      currentFetches := map[];
      tokenImages := None;
      tasks := [];
      notifications := [];
      fetched := [];
    }

    /** The table a token lookup sees: the one already built, else none. */
    function TokenTable(): map<string, string>
      reads this
    {
      if tokenImages.Some? then tokenImages.value else map[]
    }

    /**
     * The first half of fetchImage(card, key, observer): resolving the key.
     * tokenList stands for the name/URL pairs of the token list file, read only
     * when the table is still missing.
     */
    method ResolveKey(key: string, db: CardDb, tokenList: seq<(string, string)>)
      returns (res: Result<Request, Rejection>)
      modifies this
      ensures tokenImages == if IsTokenKey(key) && old(tokenImages).None? then Some(TableOf(tokenList))
                             else old(tokenImages)
      ensures res == Resolve(key, db, TokenTable())
      ensures currentFetches == old(currentFetches) && tasks == old(tasks)
      ensures notifications == old(notifications) && fetched == old(fetched)
    {
      if |key| < 2 {
        return Err(KeyTooShort);
      }
      var prefix := key[..2];
      if prefix == CARD_PREFIX {
        var paperCard := db.paperCardOf(key);
        if paperCard.None? {
          return Err(CardNotFound);
        }
        var card := paperCard.value;
        var backFace := EndsWith(key, BACKFACE_POSTFIX);
        var filename := db.imageFileOf(card, backFace);
        var dest := Dest(CardPics, filename + JPG);
        var cardNum := db.collectorNumber(card.name, card.edition);
        var url: string;
        if cardNum != -1 {
          var setCode := ToLower(db.code2Of(card.edition));
          var suffix := "";
          if card.hasOtherPart {
            suffix := if backFace then "b" else "a";
          }
          url := CARD_SCAN_BASE + setCode + "/" + DecimalString(cardNum) + suffix + JPG;
        } else {
          var result := db.fallbackUrl(card, backFace);
          if result.None? {
            return Err(NoDownloadUrl);
          }
          url := result.value;
        }
        return Ok(Request(url, dest));
      } else if prefix == TOKEN_PREFIX {
        if tokenImages.None? {
          var table := BuildTokenTable(tokenList);
          tokenImages := Some(table);
        }
        var filename := key[2..] + JPG;
        if filename !in tokenImages.value {
          return Err(TokenNotListed);
        }
        return Ok(Request(tokenImages.value[filename], Dest(TokenPics, filename)));
      } else {
        return Err(UnknownPrefix);
      }
    }

    /**
     * fetchImage(card, key, observer): a rejected key changes nothing; a
     * destination already in flight gains the observer; otherwise a new entry
     * holding just the observer is made and one download is submitted.
     */
    method FetchImage(key: string, observer: Observer, db: CardDb, tokenList: seq<(string, string)>)
      returns (outcome: Outcome)
      requires Valid()
      modifies this
      ensures Valid()
      ensures tokenImages == if IsTokenKey(key) && old(tokenImages).None? then Some(TableOf(tokenList))
                             else old(tokenImages)
      ensures outcome == OutcomeOf(Resolve(key, db, TokenTable()), old(currentFetches))
      ensures currentFetches == match outcome
        case Rejected(_) => old(currentFetches)
        case Joined(d) => Register(old(currentFetches), d, observer)
        case Submitted(req) => Register(old(currentFetches), req.dest, observer)
      ensures tasks == old(tasks) + (if outcome.Submitted? then [outcome.request] else [])
      ensures notifications == old(notifications) && fetched == old(fetched)
    {
      var res := ResolveKey(key, db, tokenList);
      if res.Err? {
        return Rejected(res.error);
      }
      var request := res.value;
      var dest := request.dest;
      if dest in currentFetches {
        currentFetches := currentFetches[dest := currentFetches[dest] + {observer}];
        return Joined(dest);
      }
      currentFetches := currentFetches[dest := {observer}];
      tasks := tasks + [request];
      return Submitted(request);
    }

    /**
     * The thread pool runs the i-th queued download. On success the
     * notification is posted; on failure nothing else happens, so the entry
     * stays in currentFetches and its observers are never told.
     */
    method RunDownload(i: nat, success: bool)
      requires Valid() && i < |tasks|
      modifies this
      ensures Valid()
      ensures tasks == old(tasks[..i] + tasks[i + 1..])
      ensures notifications == old(notifications) + (if success then [old(tasks[i].dest)] else [])
      ensures currentFetches == old(currentFetches) && fetched == old(fetched) && tokenImages == old(tokenImages)
    {
      var dest := tasks[i].dest;
      tasks := tasks[..i] + tasks[i + 1..];
      if success {
        notifications := notifications + [dest];
      }
    }

    /** The event queue runs the next notification: every observer of that path is told once, then the entry goes. */
    method NotifyObservers()
      requires Valid() && |notifications| > 0
      modifies this
      ensures Valid()
      ensures var d := old(notifications[0]);
        && |fetched| >= |old(fetched)| && fetched[..|old(fetched)|] == old(fetched)
        && multiset(fetched[|old(fetched)|..]) == multiset(old(currentFetches[d]))
        && currentFetches == old(currentFetches) - {d}
      ensures notifications == old(notifications[1..]) && tasks == old(tasks) && tokenImages == old(tokenImages)
    {
      var dest := notifications[0];
      var calls := VisitOnce(currentFetches[dest]);
      fetched := fetched + calls;
      currentFetches := currentFetches - {dest};
      notifications := notifications[1..];
      assert fetched[|old(fetched)|..] == calls;
    }
  }

  /**
   * Two observers asking for the same token share one download, and both are
   * told once when it completes.
   */
  method SharedDownload() returns (first: Outcome, second: Outcome, downloads: nat, told: multiset<Observer>)
    ensures first.Submitted? && second.Joined? && second.dest == first.request.dest
    ensures downloads == 1
    ensures told == multiset{1, 2}
  {
    var f := new Fetcher();
    var db := CardDb(_ => None, (_, _) => "", (_, _) => -1, _ => "", (_, _) => None);
    var list := [("goblin.jpg", "http://tokens/goblin.jpg")];
    assert TableOf(list) == map["goblin.jpg" := "http://tokens/goblin.jpg"];
    assert "t:goblin"[..2] == TOKEN_PREFIX && TokenFile("t:goblin") == "goblin.jpg";
    first := f.FetchImage("t:goblin", 1, db, list);
    second := f.FetchImage("t:goblin", 2, db, list);
    downloads := |f.tasks|;
    f.RunDownload(0, true);
    f.NotifyObservers();
    told := multiset(f.fetched);
  }

  /**
   * After a failed download the entry stays: a later request for the same
   * token joins it, no new download starts, and nobody is ever told.
   */
  method StaleEntryAfterFailure() returns (retry: Outcome, downloads: nat, waiting: set<Observer>, told: seq<Observer>)
    ensures retry.Joined?
    ensures downloads == 0
    ensures waiting == {1, 2}
    ensures told == []
  {
    var f := new Fetcher();
    var db := CardDb(_ => None, (_, _) => "", (_, _) => -1, _ => "", (_, _) => None);
    var list := [("goblin.jpg", "http://tokens/goblin.jpg")];
    assert TableOf(list) == map["goblin.jpg" := "http://tokens/goblin.jpg"];
    assert "t:goblin"[..2] == TOKEN_PREFIX && TokenFile("t:goblin") == "goblin.jpg";
    var first := f.FetchImage("t:goblin", 1, db, list);
    f.RunDownload(0, false);
    retry := f.FetchImage("t:goblin", 2, db, list);
    downloads := |f.tasks|;
    waiting := f.currentFetches[Dest(TokenPics, "goblin.jpg")];
    told := f.fetched;
  }
}
