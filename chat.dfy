/** The sender tag that both chat front ends, `TunerApp.jsx` and
    `TunerChat.jsx`, put on every message: `'user'` or `'bot'`. */
module Chat {
  datatype Sender = User | Bot
}
