/**
 * plugins/personal.js: bios and personal pages bought in the shop, the
 * staff commands that remove them, the edit links handed out by
 * `editpage`, the title of a public page taken from its URL, and the check
 * `/page.html` makes on the token that comes with an edit request. Markdown
 * rendering and the page HTML are not modelled.
 */
module PersonalPages {
  import opened Wrappers
  import opened JsText
  import opened Utils
  import opened Perks
  import Q = QuillLedger
  import WebServer

  const BioItem: string := "bio"
  const PageItem: string := "page"

  /** Edit links stay valid for three hours. */
  const EditMinutes: int := 180

  /** The `/public-page.html` route: tokens for it must carry `publicpage`, and one is required. */
  const PublicPageHtml: WebServer.Page := WebServer.Page(Some("publicpage"), false)

  /** The `/page.html` route as written: it asks for `publicpage` tokens, and a token is optional. */
  const PageHtmlAsWritten: WebServer.Page := WebServer.Page(Some("publicpage"), true)

  /** The `/page.html` route as meant: it asks for the `page` tokens that editpage issues. */
  const PageHtml: WebServer.Page := WebServer.Page(Some("page"), true)

  /** The `createAccessToken` call behind a link. */
  datatype TokenRequest = TokenRequest(permission: string, room: string, user: string, mins: int)

  /** The record `createAccessToken` stores for a request. */
  function Issued(t: TokenRequest): (data: WebServer.TokenData)
    ensures data.expiration == t.mins * 60000 && data.permission == Some(t.permission)
    ensures data.room == t.room && data.user == t.user
  {
    WebServer.TokenData(t.mins * 60000, Some(t.permission), t.room, t.user)
  }

  /** How `page` ends: a notice that there is no page (phrased for the caller's own), or nothing at all. */
  datatype PageReply = NoPersonalPage(own: bool) | NoReply

  /** `toId(message) || userid` */
  function PageTarget(userid: string, message: string): string {
    if ToId(message) != "" then ToId(message) else userid
  }

  /**
   * The page looked up is always an account id, and it is the caller's own
   * (so the notice says "You don't have") exactly when the message names
   * no one or names the caller.
   */
  lemma PageTargetIsAnId(userid: string, message: string)
    requires ToId(userid) == userid
    ensures ToId(PageTarget(userid, message)) == PageTarget(userid, message)
    ensures PageTarget(userid, message) == userid <==> ToId(message) == "" || ToId(message) == userid
  {
    ToIdIdempotent(message);
  }

  /** How `editpage` ends. */
  datatype EditReply =
    | NeedsRank
    | NeedsPageItem
    | PublicPageLink(pageid: string, token: TokenRequest)
    | OwnPageLink(token: TokenRequest)

  /**
   * editpage: with an argument, a room owner gets a `publicpage` link to
   * that public page; without one, a page owner gets a `page` link to their
   * own page.
   */
  function EditPageSpec(accounts: map<string, Q.Account>, userid: string, roomid: string, message: string,
                        hasPerms: char -> bool): EditReply
  {
    var pageid := ToId(message);
    if pageid != "" then
      if !hasPerms('@') then NeedsRank else PublicPageLink(pageid, TokenRequest("publicpage", roomid, userid, EditMinutes))
    else if !Owns(accounts, userid, PageItem) then NeedsPageItem
    else OwnPageLink(TokenRequest("page", roomid, userid, EditMinutes))
  }

  /** What the `/page.html` resolver answers. */
  datatype PageView = AskUser | Mismatch | EditForm(content: string) | PageMissing | Show(content: string)

  /** The `/page.html` resolver, once the server has let the request through with `token`. */
  function PageRoute(url: string, token: Option<WebServer.TokenData>, pages: map<string, string>): PageView {
    var query := QueryOf(url);
    var userid := if "user" in query then query["user"] else "";
    if userid == "" then AskUser
    else if token.Some? then
      if token.value.user != userid then Mismatch else EditForm(if userid in pages then pages[userid] else "")
    else if !IsSet(pages, userid) then PageMissing
    else Show(pages[userid])
  }

  /** `url.split('/')[2].slice(0, -5)` */
  function PageIdOf(segment: string): (pageid: string)
    ensures |pageid| == if |segment| >= 5 then |segment| - 5 else 0
    ensures pageid == segment[..|pageid|]
  {
    segment[..if |segment| >= 5 then |segment| - 5 else 0]
  }

  /**
   * pubResolver: the page id and its title, the id with its first letter
   * upper-cased; None where the code would throw (fewer than three
   * segments, or an empty id).
   */
  function PubResolver(url: string): Option<(string, string)> {
    var parts := Split(url, '/');
    if |parts| < 3 then None
    else
      var pageid := PageIdOf(parts[2]);
      if pageid == "" then None else Some(([UpperChar(pageid[0])] + pageid[1..], pageid))
  }

  /** `storage.getJSON('bios')` and `storage.getJSON('personal-pages')`. */
  class PersonalStore {
    var bios: map<string, string>
    var pages: map<string, string>

    constructor (bios: map<string, string>, pages: map<string, string>)
      ensures this.bios == bios && this.pages == pages
    {
      this.bios := bios;
      this.pages := pages;
    }

    /** setbio: the shared set command, with no length limit. */
    method SetBio(userid: string, message: string, ledger: Q.Quills) returns (reply: SetReply)
      requires ledger.Valid()
      modifies this, ledger
      ensures ledger.Valid()
      ensures (reply, bios, ledger.accounts) == SetPerk(old(bios), old(ledger.accounts), userid, message, BioItem, None)
      ensures pages == old(pages)
      ensures ledger.order == TouchedOrder(old(ledger.order), old(ledger.accounts), userid)
      ensures ledger.shop == old(ledger.shop)
    {
      var account := ledger.GetAccount(userid);
      if BioItem !in account.inventory {
        return NeedsItem;
      }
      var text := Trim(message);
      if text == "" {
        return Syntax;
      }
      bios := bios[userid := text];
      reply := PerkSet(text);
    }

    /** deletebio, removing the target's bio (see Perks.RemoveAsWritten for the code as written). */
    method DeleteBio(message: string, hasPerms: char -> bool, ledger: Q.Quills) returns (reply: Removal)
      requires ledger.Valid()
      modifies this, ledger
      ensures ledger.Valid()
      ensures (reply, bios, ledger.accounts) == Remove(old(bios), old(ledger.accounts), message, BioItem, hasPerms)
      ensures pages == old(pages)
      ensures ledger.order == if hasPerms('%') then TouchedOrder(old(ledger.order), old(ledger.accounts), ToId(message)) else old(ledger.order)
      ensures ledger.shop == old(ledger.shop)
    {
      if !hasPerms('%') {
        return Denied;
      }
      var target := ToId(message);
      var account := ledger.GetAccount(target);
      if !(BioItem in account.inventory && target in bios && bios[target] != "") {
        return NotSet;
      }
      bios := bios - {target};
      var _ := ledger.UseItem(target, BioItem);
      reply := Removed(target);
    }

    /** deletepage, removing the target's page (see Perks.RemoveAsWritten for the code as written). */
    method DeletePage(message: string, hasPerms: char -> bool, ledger: Q.Quills) returns (reply: Removal)
      requires ledger.Valid()
      modifies this, ledger
      ensures ledger.Valid()
      ensures (reply, pages, ledger.accounts) == Remove(old(pages), old(ledger.accounts), message, PageItem, hasPerms)
      ensures bios == old(bios)
      ensures ledger.order == if hasPerms('%') then TouchedOrder(old(ledger.order), old(ledger.accounts), ToId(message)) else old(ledger.order)
      ensures ledger.shop == old(ledger.shop)
    {
      if !hasPerms('%') {
        return Denied;
      }
      var target := ToId(message);
      var account := ledger.GetAccount(target);
      if !(PageItem in account.inventory && target in pages && pages[target] != "") {
        return NotSet;
      }
      pages := pages - {target};
      var _ := ledger.UseItem(target, PageItem);
      reply := Removed(target);
    }

    /** page: looks up the target's page item; the account is created if absent. */
    method Page(userid: string, message: string, ledger: Q.Quills) returns (reply: PageReply)
      requires ledger.Valid()
      modifies ledger
      ensures ledger.Valid()
      ensures var target := PageTarget(userid, message);
        && ledger.accounts == Touched(old(ledger.accounts), target)
        && ledger.order == TouchedOrder(old(ledger.order), old(ledger.accounts), target)
        && reply == if Owns(old(ledger.accounts), target, PageItem) then NoReply else NoPersonalPage(userid == target)
      ensures ledger.shop == old(ledger.shop)
    {
      var target := ToId(message);
      if target == "" {
        target := userid;
      }
      var account := ledger.GetAccount(target);
      if PageItem !in account.inventory {
        return NoPersonalPage(userid == target);
      }
      reply := NoReply;
    }

    /** editpage; the account of a caller without an argument is created if absent. */
    method EditPage(userid: string, roomid: string, message: string, hasPerms: char -> bool, ledger: Q.Quills)
      returns (reply: EditReply)
      requires ledger.Valid()
      modifies ledger
      ensures ledger.Valid()
      ensures reply == EditPageSpec(old(ledger.accounts), userid, roomid, message, hasPerms)
      ensures ToId(message) != "" ==> ledger.accounts == old(ledger.accounts) && ledger.order == old(ledger.order)
      ensures ToId(message) == "" ==>
        ledger.accounts == Touched(old(ledger.accounts), userid)
        && ledger.order == TouchedOrder(old(ledger.order), old(ledger.accounts), userid)
      ensures ledger.shop == old(ledger.shop)
    {
      var pageid := ToId(message);
      if pageid != "" {
        if !hasPerms('@') {
          return NeedsRank;
        }
        return PublicPageLink(pageid, TokenRequest("publicpage", roomid, userid, EditMinutes));
      }
      var account := ledger.GetAccount(userid);
      if PageItem !in account.inventory {
        return NeedsPageItem;
      }
      reply := OwnPageLink(TokenRequest("page", roomid, userid, EditMinutes));
    }
  }

  /** The title of `/pages/<id>.html` is the id with its first letter upper-cased. */
  lemma {:induction false} PubResolverOfRoute(id: string)
    requires id != "" && '/' !in id
    ensures PubResolver("/pages/" + id + ".html") == Some(([UpperChar(id[0])] + id[1..], id))
  {
    var url := "/pages/" + id + ".html";
    var rest := id + ".html";
    assert '/' !in rest;
    assert url == "" + ['/'] + ("pages" + ['/'] + rest);
    SplitAtFirst("", '/', "pages" + ['/'] + rest);
    SplitAtFirst("pages", '/', rest);
    SplitNoSeparator(rest, '/');
    assert Split(url, '/') == ["", "pages", rest];
    assert PageIdOf(rest) == id;
  }

  /**
   * With a token, `/page.html` answers with the edit form only when the
   * token's user is the user in the query; without one it shows the page
   * only when that user has one.
   */
  lemma {:induction false} PageRouteChecksTokenUser(url: string, token: Option<WebServer.TokenData>, pages: map<string, string>)
    ensures var query := QueryOf(url);
      && (PageRoute(url, token, pages).EditForm? <==>
            "user" in query && query["user"] != "" && token.Some? && token.value.user == query["user"])
      && (PageRoute(url, token, pages) == Mismatch <==>
            "user" in query && query["user"] != "" && token.Some? && token.value.user != query["user"])
      && (PageRoute(url, token, pages).Show? <==>
            "user" in query && query["user"] != "" && token.None? && IsSet(pages, query["user"]))
  {
  }

  /**
   * editpage hands out a link only to a room owner for a public page, or
   * to a page owner for their own, and each link lasts three hours.
   */
  lemma {:induction false} EditPageLinks(accounts: map<string, Q.Account>, userid: string, roomid: string, message: string,
                                         hasPerms: char -> bool)
    ensures var reply := EditPageSpec(accounts, userid, roomid, message, hasPerms);
      && (reply.PublicPageLink? <==> ToId(message) != "" && hasPerms('@'))
      && (reply.OwnPageLink? <==> ToId(message) == "" && Owns(accounts, userid, PageItem))
      && (reply.PublicPageLink? ==> reply.pageid == ToId(message) && reply.token == TokenRequest("publicpage", roomid, userid, 180))
      && (reply.OwnPageLink? ==> reply.token == TokenRequest("page", roomid, userid, 180))
  {
  }

  /**
   * As written, the link to one's own page never opens it: the token asks
   * for `page` while `/page.html` checks for `publicpage`, so the server
   * refuses it.
   */
  lemma {:induction false} OwnPageLinkRefusedAsWritten(accounts: map<string, Q.Account>, userid: string, roomid: string,
                                                       hasPerms: char -> bool, tokens: map<string, WebServer.TokenData>,
                                                       token: string, req: WebServer.Request)
    requires Owns(accounts, userid, PageItem)
    requires WebServer.QueryToken(req.url) == Some(token)
    ensures var link := EditPageSpec(accounts, userid, roomid, "", hasPerms);
      link.OwnPageLink? && WebServer.Resolve(PageHtmlAsWritten, req, tokens[token := Issued(link.token)]) == WebServer.InvalidToken
  {
    assert ToId("") == "";
  }

  /**
   * With `/page.html` asking for `page`, the own-page link reaches the edit
   * form of the caller's page, and of no one else's.
   */
  lemma {:induction false} OwnPageLinkOpensEditor(accounts: map<string, Q.Account>, userid: string, roomid: string,
                                                  hasPerms: char -> bool, tokens: map<string, WebServer.TokenData>,
                                                  token: string, req: WebServer.Request, pages: map<string, string>)
    requires Owns(accounts, userid, PageItem) && userid != ""
    requires WebServer.QueryToken(req.url) == Some(token)
    requires "user" in QueryOf(req.url) && QueryOf(req.url)["user"] != ""
    ensures var link := EditPageSpec(accounts, userid, roomid, "", hasPerms);
      var data := Issued(link.token);
      && WebServer.Resolve(PageHtml, req, tokens[token := data]) == WebServer.Rendered(Some(data), req.isPost && req.hasBody)
      && (PageRoute(req.url, Some(data), pages).EditForm? <==> QueryOf(req.url)["user"] == userid)
  {
    assert ToId("") == "";
  }

  /**
   * Public pages stay with room owners: a caller without `@` is given no
   * public-page link, and the own-page link they may get does not pass the
   * `/public-page.html` gate.
   */
  lemma {:induction false} PublicPagesNeedRank(accounts: map<string, Q.Account>, userid: string, roomid: string,
                                               message: string, hasPerms: char -> bool,
                                               tokens: map<string, WebServer.TokenData>, token: string, req: WebServer.Request)
    requires !hasPerms('@')
    requires WebServer.QueryToken(req.url) == Some(token)
    ensures var link := EditPageSpec(accounts, userid, roomid, message, hasPerms);
      && !link.PublicPageLink?
      && (link.OwnPageLink? ==>
            WebServer.Resolve(PublicPageHtml, req, tokens[token := Issued(link.token)]) == WebServer.InvalidToken)
  {
  }
}
