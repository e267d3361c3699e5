/** Entries of a filtered playlist, as the controller sees them. */
module Playlist {

  /** One way of playing an entry: a media file and the type a provider is chosen by. */
  datatype Source = Source(file: string, mediaType: string)

  /** A playlist entry; an entry whose `sources` is missing has an empty sequence here. */
  datatype Item = Item(title: string, sources: seq<Source>)
}
