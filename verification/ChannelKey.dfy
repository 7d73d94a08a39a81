/** Channel keys (src/notify/channel_key.cpp): a tenant scope and a channel name joined by a colon. */
module ChannelKeys {

  const GLOBAL_SCOPE := "__global__"

  function NormalizeTidScope(scope: string): (r: string)
    ensures r != ""
  {
    if scope == "" then GLOBAL_SCOPE else scope
  }

  function ChannelKey(channel: string, scope: string): (r: string) {
    NormalizeTidScope(scope) + ":" + channel
  }

  predicate ColonFree(s: string) {
    ':' !in s
  }

  /** The colon that ChannelKey puts in. */
  lemma KeyParts(channel: string, scope: string)
    ensures var key, n := ChannelKey(channel, scope), |NormalizeTidScope(scope)|;
            |key| == n + 1 + |channel| && key[n] == ':' && key[..n] == NormalizeTidScope(scope) && key[n + 1..] == channel
  {
  }

  lemma NoEarlierColon(channel: string, scope: string)
    requires ColonFree(scope)
    ensures forall i :: 0 <= i < |NormalizeTidScope(scope)| ==> ChannelKey(channel, scope)[i] != ':'
  {
    var norm := NormalizeTidScope(scope);
    assert forall i :: 0 <= i < |norm| ==> ChannelKey(channel, scope)[i] == norm[i] && norm[i] in norm;
  }

  /** Scopes without a colon keep channels apart: two keys are equal exactly when the channels and the normalised scopes
      are, so only "" and "__global__" name the same scope. */
  lemma KeySeparation(c1: string, s1: string, c2: string, s2: string)
    requires ColonFree(s1) && ColonFree(s2)
    ensures ChannelKey(c1, s1) == ChannelKey(c2, s2) <==> c1 == c2 && NormalizeTidScope(s1) == NormalizeTidScope(s2)
  {
    KeyParts(c1, s1);
    KeyParts(c2, s2);
    NoEarlierColon(c1, s1);
    NoEarlierColon(c2, s2);
  }

  /** Which scopes are the same: only the empty one has another name. */
  lemma SameScopeIff(s1: string, s2: string)
    ensures NormalizeTidScope(s1) == NormalizeTidScope(s2) <==>
              s1 == s2 || (s1 == "" && s2 == "__global__") || (s1 == "__global__" && s2 == "")
  {
  }

  /** Another channel and scope have the same key. */
  ghost predicate Aliased(channel: string, scope: string) {
    exists c: string, s: string ::
      && c != "" && ChannelKey(c, s) == ChannelKey(channel, scope)
      && (c != channel || NormalizeTidScope(s) != NormalizeTidScope(scope))
  }

  /** Without that restriction keys are ambiguous exactly when the scope has a colon after its first character or the
      channel has one before its last. */
  lemma AliasedIff(channel: string, scope: string)
    requires channel != ""
    ensures Aliased(channel, scope) <==>
              ':' in NormalizeTidScope(scope)[1..] || ':' in channel[..|channel| - 1]
  {
    var key, norm := ChannelKey(channel, scope), NormalizeTidScope(scope);
    KeyParts(channel, scope);
    assert forall i :: 0 < i < |norm| ==> norm[1..][i - 1] == key[i];
    assert forall i :: |norm| < i < |key| - 1 ==> channel[..|channel| - 1][i - |norm| - 1] == key[i];
    if ':' in norm[1..] {
      var i :| 0 <= i < |norm[1..]| && norm[1..][i] == ':';
      AliasAt(channel, scope, i + 1);
    } else if ':' in channel[..|channel| - 1] {
      var i :| 0 <= i < |channel| - 1 && channel[i] == ':';
      AliasAt(channel, scope, |norm| + 1 + i);
    } else if Aliased(channel, scope) {
      var c, s :| c != "" && ChannelKey(c, s) == key && (c != channel || NormalizeTidScope(s) != norm);
      KeyParts(c, s);
    }
  }

  lemma AliasAt(channel: string, scope: string, i: nat)
    requires 0 < i < |ChannelKey(channel, scope)| - 1 && ChannelKey(channel, scope)[i] == ':'
    requires i != |NormalizeTidScope(scope)|
    ensures Aliased(channel, scope)
  {
    var key := ChannelKey(channel, scope);
    assert ChannelKey(key[i + 1..], key[..i]) == key;
  }
}
