/** The application store of lib/context/StoreContext.js: the signed-in
    user, chat and GPT lists with "loaded" flags, and a cache of opened
    chats keyed by chat id whose entries expire five minutes after they
    were loaded.  `now` stands for `Date.now()`. */
module StoreContext {
  import opened Wrappers

  /** Five minutes, in milliseconds. */
  const CacheDuration: int := 5 * 60 * 1000

  datatype Profile = Profile(id: string, email: string, name: Option<string>)
  datatype ChatMeta = ChatMeta(id: string, title: string)
  datatype GptMeta = GptMeta(id: string, name: string)
  datatype CachedMessage = CachedMessage(role: string, content: string, createdAt: int)

  /** `{chat, messages, loadedAt}`. */
  datatype CacheEntry = CacheEntry(chat: ChatMeta, messages: seq<CachedMessage>, loadedAt: int)

  /** An entry is served while no more than `CacheDuration` ms have passed
      since it was loaded; expiry is the strict `now - loadedAt > CacheDuration`. */
  predicate Fresh(entry: CacheEntry, now: int) {
    !(now - entry.loadedAt > CacheDuration)
  }

  /** `getChatCache(chatId)` over a cache value. */
  function Lookup(cache: map<string, CacheEntry>, chatId: string, now: int): (r: Option<CacheEntry>)
    ensures r.Some? <==> chatId in cache && now - cache[chatId].loadedAt <= CacheDuration
    ensures r.Some? ==> r.value == cache[chatId]
  {
    if chatId !in cache then None
    else if Fresh(cache[chatId], now) then Some(cache[chatId])
    else None
  }

  /** An entry set at time `t` is served at `t + 300000` and not at `t + 300001`. */
  lemma ExpiryBoundary(cache: map<string, CacheEntry>, chatId: string, entry: CacheEntry)
    requires chatId in cache && cache[chatId] == entry
    ensures Lookup(cache, chatId, entry.loadedAt + 300000) == Some(entry)
    ensures Lookup(cache, chatId, entry.loadedAt + 300001) == None
  {
  }

  /** The list with only its last message's content replaced. */
  function WithLastContent(messages: seq<CachedMessage>, content: string): (r: seq<CachedMessage>)
    requires messages != []
    ensures |r| == |messages|
    ensures r[..|r| - 1] == messages[..|messages| - 1]
    ensures r[|r| - 1].content == content
    ensures r[|r| - 1].role == messages[|messages| - 1].role
    ensures r[|r| - 1].createdAt == messages[|messages| - 1].createdAt
  {
    messages[..|messages| - 1] + [messages[|messages| - 1].(content := content)]
  }

  /** Replacing the last content twice keeps only the second, and replacing
      it by its own value changes nothing. */
  lemma {:induction false} WithLastContentLaws(messages: seq<CachedMessage>, c1: string, c2: string)
    requires messages != []
    ensures WithLastContent(WithLastContent(messages, c1), c2) == WithLastContent(messages, c2)
    ensures WithLastContent(messages, messages[|messages| - 1].content) == messages
  {
    var n := |messages|;
    var once := WithLastContent(messages, c1);
    assert once[..n - 1] == messages[..n - 1];
    assert messages == messages[..n - 1] + [messages[n - 1]];
  }

  class AppStore {
    var user: Option<Profile>
    var chats: seq<ChatMeta>
    var customGpts: seq<GptMeta>
    var publicGpts: seq<GptMeta>
    var starredGpts: seq<GptMeta>
    var selectedGpt: Option<GptMeta>
    var isLoading: bool
    var chatsLoaded: bool
    var customGptsLoaded: bool
    var starredGptsLoaded: bool
    var chatCache: map<string, CacheEntry>

    /** The initial `useState` values. */
    constructor ()
      ensures user == None && chats == [] && customGpts == [] && publicGpts == [] && starredGpts == []
      ensures selectedGpt == None && !isLoading
      ensures !chatsLoaded && !customGptsLoaded && !starredGptsLoaded && chatCache == map[]
    {
      user, chats, customGpts, publicGpts, starredGpts := None, [], [], [], [];
      selectedGpt, isLoading := None, false;
      chatsLoaded, customGptsLoaded, starredGptsLoaded := false, false, false;
      chatCache := map[];
    }

    method SetUser(u: Option<Profile>)
      modifies this`user
      ensures user == u
    {
      user := u;
    }

    /** `handleSetChats`: the list and its own flag only. */
    method SetChats(newChats: seq<ChatMeta>)
      modifies this`chats, this`chatsLoaded
      ensures chats == newChats && chatsLoaded
    {
      chats, chatsLoaded := newChats, true;
    }

    /** `handleSetCustomGPTs`. */
    method SetCustomGpts(gpts: seq<GptMeta>)
      modifies this`customGpts, this`customGptsLoaded
      ensures customGpts == gpts && customGptsLoaded
    {
      customGpts, customGptsLoaded := gpts, true;
    }

    /** `setPublicGPTs`: raises no flag. */
    method SetPublicGpts(gpts: seq<GptMeta>)
      modifies this`publicGpts
      ensures publicGpts == gpts
    {
      publicGpts := gpts;
    }

    /** `handleSetStarredGPTs`. */
    method SetStarredGpts(gpts: seq<GptMeta>)
      modifies this`starredGpts, this`starredGptsLoaded
      ensures starredGpts == gpts && starredGptsLoaded
    {
      starredGpts, starredGptsLoaded := gpts, true;
    }

    method SetSelectedGpt(g: Option<GptMeta>)
      modifies this`selectedGpt
      ensures selectedGpt == g
    {
      selectedGpt := g;
    }

    method SetIsLoading(b: bool)
      modifies this`isLoading
      ensures isLoading == b
    {
      isLoading := b;
    }

    /** `setChatCache(chatId, {chat, messages})`: overwrites that one entry,
        stamped with the current time. */
    method SetChatCache(chatId: string, chat: ChatMeta, messages: seq<CachedMessage>, now: int)
      modifies this`chatCache
      ensures chatCache == old(chatCache)[chatId := CacheEntry(chat, messages, now)]
      ensures Lookup(chatCache, chatId, now) == Some(CacheEntry(chat, messages, now))
    {
      chatCache := chatCache[chatId := CacheEntry(chat, messages, now)];
    }

    /** `getChatCache(chatId)`: the entry while it is fresh. */
    function GetChatCache(chatId: string, now: int): (r: Option<CacheEntry>)
      reads this
      ensures r.Some? <==> chatId in chatCache && now - chatCache[chatId].loadedAt <= CacheDuration
      ensures r.Some? ==> r.value == chatCache[chatId]
    {
      Lookup(chatCache, chatId, now)
    }

    /** `addMessageToCache(chatId, message)`: nothing for an uncached chat;
        otherwise the message is appended and the load time is kept, so the
        entry expires when it would have before. */
    method AddMessageToCache(chatId: string, message: CachedMessage)
      modifies this`chatCache
      ensures chatId !in old(chatCache) ==> chatCache == old(chatCache)
      ensures chatId in old(chatCache) ==>
                chatCache == old(chatCache)[chatId := old(chatCache)[chatId].(messages := old(chatCache)[chatId].messages + [message])]
      ensures forall t :: GetChatCache(chatId, t).Some? <==> old(GetChatCache(chatId, t)).Some?
    {
      if chatId !in chatCache {
        return;
      }
      var cached := chatCache[chatId];
      chatCache := chatCache[chatId := cached.(messages := cached.messages + [message])];
    }

    /** `updateLastMessageInCache(chatId, content)`: nothing for an uncached
        chat or an empty list; otherwise only the last message's content. */
    method UpdateLastMessageInCache(chatId: string, content: string)
      modifies this`chatCache
      ensures chatId !in old(chatCache) || old(chatCache)[chatId].messages == [] ==> chatCache == old(chatCache)
      ensures chatId in old(chatCache) && old(chatCache)[chatId].messages != [] ==>
                chatCache == old(chatCache)[chatId := old(chatCache)[chatId].(
                  messages := WithLastContent(old(chatCache)[chatId].messages, content))]
    {
      if chatId !in chatCache || chatCache[chatId].messages == [] {
        return;
      }
      var cached := chatCache[chatId];
      chatCache := chatCache[chatId := cached.(messages := WithLastContent(cached.messages, content))];
    }

    /** `clearCache()`: empties the cache and lowers the three flags; the
        lists and the user stay. */
    method ClearCache()
      modifies this`chatCache, this`chatsLoaded, this`customGptsLoaded, this`starredGptsLoaded
      ensures chatCache == map[]
      ensures !chatsLoaded && !customGptsLoaded && !starredGptsLoaded
      ensures forall id, t :: GetChatCache(id, t) == None
    {
      chatCache := map[];
      chatsLoaded, customGptsLoaded, starredGptsLoaded := false, false, false;
    }
  }
}
